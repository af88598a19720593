# bot-arena render core in Dafny

This project models two parts of the bot-arena viewer.

The **scene compositor** is `Engine` in `packages/graphics/engine.py`. Once per frame it does four things:
- it has the camera, the three entity trackers and the particle controller update themselves;
- it clears its draw screen and blits the pre-rendered map at the camera offset;
- it draws every soldier, turret and farm, each with its sprite, a soldier's two-layer health bar, and the info tab of a selected object with its reveal mask;
- it draws every particle.

Every blit except the map's goes through the culling helper `__draw`; the map is blitted directly. The model keeps the draw screen as the ordered list of blits (sprite, size, screen position) made since the last clear. Pixels are not modelled.

The **GUI object tree** is `GUIobject` in `packages/gui/gui_objects/gui_object.py`. Every object has keyword properties and a list of sub-objects. `get_info` and `send_info` read and write a property of the first object in pre-order whose `id` property matches.

Files:

- `wrappers.dfy`: `Option` and `Result`.
- `engine_draw.dfy` (module `EngineDraw`): the drawing rules as functions and the lemmas about them:
  - the facing table;
  - sprite choice;
  - anchor;
  - culling;
  - health bars;
  - info tab layout and mask;
  - the whole frame as a value, `Frame`.
- `engine.dfy` (module `Engine`): class `Engine`. Its fields are the draw screen, the camera offset that `Draw` adds, and a log of collaborator updates. Each method that changes them is proved to produce exactly what the functions of `EngineDraw` describe.
- `gui_tree.dfy` (module `GuiTree`): the GUI tree as a value. `GetInfo` and `SetInfo` are defined there, along with their description on the pre-order list of property maps.
- `gui_object.dfy` (module `GuiObjects`): class `GuiObject` with mutable `properties` and `subObjects`, plus a ghost `Model` tree and `Repr` footprint. Its methods are proved against `GuiTree`.

Python semantics are stated explicitly:

- `int()` of a float, and pygame's conversion of a float surface size, truncate toward zero (`Trunc`).
- A missing dictionary key is an error value, not a fallback. This covers the facing table, the texture catalog (the soldier entries, `farms/farm` and `turrets/turret`) and a matched GUI object's property.
- `max()` of no lines is an error value.
- A negative surface width is an error value.
- When an error stops a frame, the blits drawn before it stay on the screen.

Details of the code's behaviour that the model keeps:

- The facing table has five entries. A direction whose truncation is not one of them fails the lookup with an error, the diagonals (1, 1) and (-1, -1) included.
- (0, 0) faces `bot`.
- The green bar is `hp_rate` times the red bar's width, truncated but not clamped.
- An empty stats dict makes the info tab fail, because `max()` of no lines raises.
- The reveal mask clears a strip at the tab's left edge.

## Model

| member | source | states |
|---|---|---|
| EngineDraw.FacingBands | packages/graphics/engine.py:89-95 | For each facing, the exact band of directions (before truncation toward zero) that selects it. Every other direction, diagonals included, is a failed lookup. |
| EngineDraw.FacingTableEntries | packages/graphics/engine.py:89-95 | The five table entries, two diagonals that fail with their truncated key, and (0.7, -0.7), which truncates to (0, 0) and faces bot. |
| EngineDraw.Texture | packages/graphics/engine.py:97-102 | The texture depends on the kind alone. A farm uses `farms/farm` and a turret `turrets/turret`, and each fails with a missing-texture error when its catalog entry is absent. A soldier uses `soldiers[name][animation][facing][frame]`, and the lookup succeeds exactly when the facing and all catalog keys exist. |
| EngineDraw.Anchor | packages/graphics/engine.py:104-111 | The texture's bottom edge lies on the tile's bottom edge. Its middle column (half width rounded down) lies on the tile's middle column. |
| EngineDraw.Cull | packages/graphics/engine.py:162-171 | At most one blit, the texture at pos + offset. There is exactly one blit when the inclusive viewport test passes, and none when it fails. |
| EngineDraw.VisibleIffTouchesScreen | packages/graphics/engine.py:168-170 | The viewport test holds exactly when the texture's closed box, moved by the offset, shares a point with the closed screen rectangle. |
| Engine.Engine.Draw | packages/graphics/engine.py:162-171 | `__draw` appends exactly the blits `Cull` allows to the screen and changes nothing else. |
| EngineDraw.HealthBars | packages/graphics/engine.py:113-121 | Both bars are at cords + (1, -4), red before green. The red bar is (w // 2) x 1 and the green bar is `FrontWidth` x 1. Each bar is drawn exactly when it passes the viewport test. A negative green width draws no green bar and is the only error. |
| EngineDraw.FrontWithinBack | packages/graphics/engine.py:114-119 | For a health ratio in [0, 1] the green bar is between 0 and the red bar's width. It is the full width at ratio 1 and half of it at ratio 0.5. |
| EngineDraw.FrontNotClamped | packages/graphics/engine.py:119 | A ratio above 1 draws the green bar wider than the red one: nothing clamps it. |
| EngineDraw.BarsOnlyForSoldiers | packages/graphics/engine.py:113 | Turrets and farms never get a health bar. |
| Engine.Engine.DrawHealthBars | packages/graphics/engine.py:113-121 | The screen gains exactly the bar blits of `HealthBars`, with the same error. |
| EngineDraw.MaxWidth | packages/graphics/engine.py:130 | The tab width bounds every line's width and is the width of some line. |
| EngineDraw.TabLinesStack | packages/graphics/engine.py:129-137 | The first line is at the top, and each line starts where the previous one ends. No line overlaps a later one. The last line ends at the tab's height. Every line fits the tab's width. |
| Engine.Engine.WidestLine | packages/graphics/engine.py:130 | The loop computes `MaxWidth` of the line sizes. |
| Engine.Engine.TotalHeight | packages/graphics/engine.py:131 | The loop computes the sum of the line heights. |
| Engine.Engine.LayOutLines | packages/graphics/engine.py:134-137 | Each line is placed at the sum of the heights of the lines before it (`TabLayout`). |
| EngineDraw.MaskWidth | packages/graphics/engine.py:139-143 | The cleared strip is never wider than the tab. It is strictly narrower than a non-empty tab while selected, and has width 0 once `select_time >= INFO_TAB_SHOW_TIME`. |
| EngineDraw.ShownFraction | packages/graphics/engine.py:141 | The shown fraction lies in (0, 1] while selected, and is 1 exactly when `select_time >= INFO_TAB_SHOW_TIME`. |
| EngineDraw.Cleared | packages/graphics/engine.py:139-143 | The cleared strip of a tab is never wider than the tab, is narrower than a non-empty tab, and is empty when the whole tab is shown. |
| EngineDraw.ShownFractionGrows | packages/graphics/engine.py:141 | The shown fraction never decreases as the selection time grows. |
| EngineDraw.ClearedShrinks | packages/graphics/engine.py:139-143 | Showing a larger fraction never widens the cleared strip. |
| EngineDraw.MaskWidthShrinks | packages/graphics/engine.py:139-143 | The cleared strip never widens as the selection time grows. |
| EngineDraw.InfoTabDrawing | packages/graphics/engine.py:123-148 | The tab fails exactly when there are no stats. Otherwise it is at most one blit of size (widest line, total height), whose right edge is at the object's x and whose top is at the object's y. The blit is there exactly when that box passes the viewport test. It carries the lines laid out by `TabLayout`, the cleared strip `MaskWidth(width, select_time, INFO_TAB_SHOW_TIME)` and the owner's layer. |
| EngineDraw.TabOnlyWhenSelected | packages/graphics/engine.py:123 | An object whose `select_time` is not positive gets no info tab. |
| Engine.Engine.DrawInfoTab | packages/graphics/engine.py:123-148 | The screen gains exactly the blits of `InfoTabDrawing`, with the same error. |
| Engine.Engine.DrawObjectRt | packages/graphics/engine.py:86-148 | The screen gains exactly `ObjectDrawing`: texture, then the soldier's bars, then the tab. The first error stops it. |
| EngineDraw.ObjectInLayer | packages/graphics/engine.py:86-148 | Every blit of an object, its info tab included, belongs to its kind's layer, and every blit passed the viewport test. |
| Engine.Engine.DrawObjects | packages/graphics/engine.py:69-78 | Objects are drawn in list order, as `DrawAll`. The first error ends the loop and is returned. |
| EngineDraw.DrawAllStops | packages/graphics/engine.py:69-78 | After the first failing object no later object is drawn. |
| Engine.Engine.DrawParticle | packages/graphics/engine.py:156-160 | A particle is a size x size square of its colour at its position, culled like any texture. |
| Engine.Engine.DrawParticles | packages/graphics/engine.py:80-82 | Particles are drawn in list order. |
| Engine.UpdateCalls | packages/graphics/engine.py:55-62 | The camera is updated first. Each tracker is reconciled with the game's entities before its own update, in the order soldiers, turrets, farms. Particles come last. Every update gets the game speed and the moved camera's mouse position. |
| Engine.Engine.Render | packages/graphics/engine.py:48-84 | The update log grows by exactly `UpdateCalls`, and the offset becomes the camera's. The screen ends as `Frame`. The result is the screen when no error occurred, and otherwise the error. |
| Engine.Engine.DrawFrame | packages/graphics/engine.py:64-84 | The screen is cleared, the map is blitted at the offset, then soldiers, turrets, farms and particles are drawn. |
| EngineDraw.FrameLayered | packages/graphics/engine.py:64-84 | The map comes first and only once. After it, soldier blits precede turret blits, which precede farm blits, which precede particles. Each info tab counts in its owner's layer. Every blit after the map passed the viewport test. |
| GuiObjects.GuiObject.constructor | packages/gui/gui_objects/gui_object.py:5-14 | The object holds the given sub-objects and properties, and its tree value is built from theirs. |
| GuiObjects.GuiObject.GetInfo | packages/gui/gui_objects/gui_object.py:16-26 | The method answers exactly `GuiTree.GetInfo` of the object's tree. |
| GuiObjects.GuiObject.SendInfo | packages/gui/gui_objects/gui_object.py:28-38 | The new tree and the flag are exactly `GuiTree.SetInfo` of the old tree, and the invariant is kept. Without a match no object changes. |
| GuiTree.GetInfoFirstMatch | packages/gui/gui_objects/gui_object.py:16-26 | Without a match the answer is None. If the first match in pre-order lacks the key, the lookup raises. If the first match holds a non-None value, that value is the answer. |
| GuiTree.SetInfoSpec | packages/gui/gui_objects/gui_object.py:28-38 | The flag is true exactly when some object carries the id. Only the first such object's `property` entry changes. Without a match the tree is unchanged. |
| GuiTree.SetInfoInFoundAt | packages/gui/gui_objects/gui_object.py:33-36 | When sub-object i is the first to report a match, exactly that sub-object is replaced. |
| GuiTree.SetInfoInNoneFound | packages/gui/gui_objects/gui_object.py:33-38 | When no sub-object reports a match, the list is unchanged and the flag is false. |
| GuiTree.SetInfoKeepsOutline | packages/gui/gui_objects/gui_object.py:28-38 | send_info never adds, removes or reorders objects. |
| GuiTree.SendThenGet | packages/gui/gui_objects/gui_object.py:16-38 | After send_info stores a non-None value under a found id, get_info answers it. The exception is a write that replaces the object's own id. |
| GuiTree.MatchIgnoresSubObjects | packages/gui/gui_objects/gui_object.py:17-18 | A matching object answers by itself and never consults its sub-objects. |
| GuiTree.NullMatchContinues | packages/gui/gui_objects/gui_object.py:21-24 | A match whose value is None does not end the search among siblings. |
| GuiTree.NullMatchExample | packages/gui/gui_objects/gui_object.py:16-26 | A concrete tree where get_info answers from the second match, not the first. |
| GuiTree.LeafWithoutId | packages/gui/gui_objects/gui_object.py:20-26 | A leaf without the id answers None and accepts no write. |

## Left out

- Camera, trackers and particle controller: their update semantics are not part of this model. Their state after updating comes in as a `View`: offset, mouse position, object lists and particles. `Render` logs each call it makes to them. The particle controller handed to the soldier tracker's reconcile is not logged: the particles it spawns arrive in the `View` with the rest.
- Asset loader, font renderer and map renderer: textures and rendered text are represented only by their sizes (`Assets`, `Env.textSize`, `mapTexture`). The asset path munging (packages/graphics/engine.py:42) is not modelled.
- Pixel contents: colours, alpha, `fill`, and the bars' red and green colours are not modelled. The mask is recorded as the width of the cleared strip.
- Float positions: object and particle positions are integers. pygame's rounding of float blit positions is not modelled.
- The `SHOW_REAL_POS` debug pixel (packages/graphics/engine.py:150-154) is a debug switch.
- Engine.Engine.constructor: it records the given environment and map texture size. It does not model building the collaborators, and the offset starts at (0, 0) until the first frame.
- `pos`, `size`, `real_pos`, `real_size` and `global_pos` of `GUIobject`, plus the `ABC` base: no logic in the modelled code uses them.
- `sub_objects` of `None` is modelled as an empty list, since the code treats both alike.
- A GUI sub-object shared between parents, or a cycle, is excluded by the class invariant. Writes through one parent would then show through another, and that aliasing is not modelled.
- `get_info`/`send_info` called with `id=None` would match objects without an `id` property. The model takes `id` to be a string, as its annotation says.
- packages/graphics/main.py and packages/gui/main.py (window, event loop, clock, input) are bootstrap I/O.
- bots/random_bot.py is not part of this model.
- packages/game_render/turret_rt.py only delegates to `ObjectRT`, which is not part of this model.
