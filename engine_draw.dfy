/**
 * The drawing rules of Engine (packages/graphics/engine.py) as functions:
 * which sprite an object uses, where it is anchored, which blits survive the
 * viewport test, the soldier health bar, the selection info tab with its
 * reveal mask, and the whole frame as the ordered list of blits it makes.
 *
 * Pixel geometry is integral; health ratio and selection time are reals.
 * A blit records the sprite, its size and its position on the draw screen
 * (camera offset already added); pixel contents are not modelled.
 */
module EngineDraw {
  import opened Wrappers

  datatype Vec = Vec(x: int, y: int)
  datatype Size = Size(w: nat, h: nat)

  /** TILE_SIZE, DRAW_SCREEN_SIZE_X, DRAW_SCREEN_SIZE_Y and INFO_TAB_SHOW_TIME. */
  datatype Config = Config(tileSize: nat, screenX: nat, screenY: nat, infoTabShowTime: real)

  predicate ValidConfig(c: Config) {
    c.tileSize > 0 && c.screenX > 0 && c.screenY > 0 && c.infoTabShowTime > 0.0
  }

  /** The facing keys of the soldier sprite catalog. */
  datatype Facing = Bot | Top | Left | Right

  /** The three render-object classes the engine draws. */
  datatype Kind =
    | Soldier(name: string, animation: string, direction: (real, real), frame: nat, hpRate: real)
    | Turret
    | Farm

  /** A render object: its kind, world position, selection time and stats (in dict order). */
  datatype RenderObject = RenderObject(kind: Kind, cords: Vec, selectTime: real, stats: seq<(string, string)>)

  datatype Color = Color(r: int, g: int, b: int, a: int)

  datatype Particle = Particle(pos: Vec, color: Color, size: nat)

  /** One text line of an info tab, blitted at (0, y) inside the tab. */
  datatype TabLine = TabLine(text: string, size: Size, y: nat)

  datatype Sprite =
    | MapTexture
    | SoldierFrame(name: string, animation: string, facing: Facing, frame: nat)
    | FarmTexture
    | TurretTexture
    | HealthBarBack
    | HealthBarFront
      /**
       * An info tab whose left `mask` columns are cleared to transparent; it is
       * drawn in the layer `owner` of the object it describes.
       */
    | InfoTab(lines: seq<TabLine>, mask: nat, owner: nat)
    | ParticleSquare(color: Color)

  datatype Blit = Blit(sprite: Sprite, size: Size, pos: Vec)

  /**
   * The loaded textures, as their sizes: soldiers by name, animation, facing
   * and frame index; the farm texture `farms/farm` and the turret texture
   * `turrets/turret`, each absent when the catalog lacks it.
   */
  datatype Assets = Assets(
    soldiers: map<string, map<string, map<Facing, seq<Size>>>>,
    farm: Option<Size>, turret: Option<Size>)

  /** What drawing depends on besides the object: constants, textures, and the font's text sizes. */
  datatype Env = Env(cfg: Config, assets: Assets, textSize: string -> Size)

  /** The exceptions that abort drawing a frame. */
  datatype DrawError =
    | UnknownDirection(dx: int, dy: int)                                // KeyError in the facing table
    | MissingSprite(name: string, animation: string, facing: Facing, frame: nat) // KeyError/IndexError in the catalog
    | MissingTexture(key: string)                                       // KeyError for farms/farm or turrets/turret
    | InvalidSurfaceSize(width: int)                                    // negative health bar width
    | EmptyStats                                                        // max() of no lines

  /** Blits made so far, and the error that stopped drawing, if any. */
  datatype Drawn = Drawn(blits: seq<Blit>, err: Option<DrawError>)

  /** What the camera, the trackers and the particle controller hold once updated. */
  datatype View = View(
    offset: Vec, mouse: Vec,
    soldiers: seq<RenderObject>, turrets: seq<RenderObject>, farms: seq<RenderObject>,
    particles: seq<Particle>)

  /** Sequencing: the second part only runs when the first did not fail. */
  function Then(a: Drawn, b: Drawn): Drawn {
    if a.err.Some? then a else Drawn(a.blits + b.blits, b.err)
  }

  // ---------------------------------------------------------------------------
  // Numbers
  // ---------------------------------------------------------------------------

  /** Python's int() of a float, and pygame's conversion of a float size: toward zero. */
  function Trunc(r: real): (t: int)
    ensures r >= 0.0 ==> 0 <= t && t as real <= r < t as real + 1.0
    ensures r < 0.0 ==> t <= 0 && t as real - 1.0 < r <= t as real
  {
    if r >= 0.0 then r.Floor else -((-r).Floor)
  }

  function Min(a: real, b: real): real {
    if a <= b then a else b
  }

  // ---------------------------------------------------------------------------
  // Sprite choice
  // ---------------------------------------------------------------------------

  /** The facing dictionary, keyed by the int-truncated direction. */
  const FacingTable: map<(int, int), Facing> :=
    map[(0, 0) := Bot, (0, -1) := Top, (0, 1) := Bot, (-1, 0) := Left, (1, 0) := Right]

  function FacingOf(direction: (real, real)): Result<Facing, DrawError> {
    var key := (Trunc(direction.0), Trunc(direction.1));
    if key in FacingTable then Ok(FacingTable[key]) else Err(UnknownDirection(key.0, key.1))
  }

  lemma TruncNearZero(r: real)
    ensures Trunc(r) == 0 <==> -1.0 < r < 1.0
    ensures Trunc(r) == 1 <==> 1.0 <= r < 2.0
    ensures Trunc(r) == -1 <==> -2.0 < r <= -1.0
  {
  }

  /**
   * The facing table read on the direction before truncation: each facing
   * covers a band of directions, and everything else, diagonals included,
   * is a failed lookup rather than a fallback.
   */
  lemma FacingBands(dx: real, dy: real)
    ensures FacingOf((dx, dy)) == Ok(Top) <==> -1.0 < dx < 1.0 && -2.0 < dy <= -1.0
    ensures FacingOf((dx, dy)) == Ok(Bot) <==> -1.0 < dx < 1.0 && -1.0 < dy < 2.0
    ensures FacingOf((dx, dy)) == Ok(Left) <==> -2.0 < dx <= -1.0 && -1.0 < dy < 1.0
    ensures FacingOf((dx, dy)) == Ok(Right) <==> 1.0 <= dx < 2.0 && -1.0 < dy < 1.0
    ensures FacingOf((dx, dy)).Err? <==>
              !((-1.0 < dx < 1.0 && -2.0 < dy < 2.0) || (-2.0 < dx < 2.0 && -1.0 < dy < 1.0))
  {
    TruncNearZero(dx);
    TruncNearZero(dy);
  }

  /** The table's entries, the diagonals it lacks, and a unit diagonal that truncates to (0, 0). */
  lemma FacingTableEntries()
    ensures FacingOf((0.0, 0.0)) == Ok(Bot)
    ensures FacingOf((0.0, -1.0)) == Ok(Top)
    ensures FacingOf((0.0, 1.0)) == Ok(Bot)
    ensures FacingOf((-1.0, 0.0)) == Ok(Left)
    ensures FacingOf((1.0, 0.0)) == Ok(Right)
    ensures FacingOf((1.0, 1.0)) == Err(UnknownDirection(1, 1))
    ensures FacingOf((-1.0, -1.0)) == Err(UnknownDirection(-1, -1))
    ensures FacingOf((0.7, -0.7)) == Ok(Bot)
  {
    FacingBands(0.0, 0.0);
    FacingBands(0.0, -1.0);
    FacingBands(0.0, 1.0);
    FacingBands(-1.0, 0.0);
    FacingBands(1.0, 0.0);
    FacingBands(0.7, -0.7);
    TruncNearZero(1.0);
    TruncNearZero(-1.0);
  }

  /** The soldier texture lookup `assets['soldiers'][name][animation][facing][frame]`. */
  function SoldierTexture(a: Assets, name: string, animation: string, facing: Facing, frame: nat): Result<Size, DrawError> {
    if name in a.soldiers && animation in a.soldiers[name] && facing in a.soldiers[name][animation]
       && frame < |a.soldiers[name][animation][facing]|
    then Ok(a.soldiers[name][animation][facing][frame])
    else Err(MissingSprite(name, animation, facing, frame))
  }

  /** The texture an object is drawn with; it depends on the kind alone. */
  function Texture(a: Assets, kind: Kind): (r: Result<(Sprite, Size), DrawError>)
    ensures kind.Farm? ==> r == if a.farm.Some? then Ok((FarmTexture, a.farm.value)) else Err(MissingTexture("farms/farm"))
    ensures kind.Turret? ==> r == if a.turret.Some? then Ok((TurretTexture, a.turret.value)) else Err(MissingTexture("turrets/turret"))
    ensures kind.Soldier? ==>
      (r.Ok? <==> FacingOf(kind.direction).Ok?
                  && SoldierTexture(a, kind.name, kind.animation, FacingOf(kind.direction).value, kind.frame).Ok?)
    ensures kind.Soldier? && r.Ok? ==>
      var facing := FacingOf(kind.direction).value;
      && r.value.0 == SoldierFrame(kind.name, kind.animation, facing, kind.frame)
      && r.value.1 == a.soldiers[kind.name][kind.animation][facing][kind.frame]
  {
    match kind
    case Soldier(name, animation, direction, frame, _) =>
      (match FacingOf(direction)
       case Err(e) => Err(e)
       case Ok(facing) =>
         match SoldierTexture(a, name, animation, facing, frame)
         case Err(e) => Err(e)
         case Ok(size) => Ok((SoldierFrame(name, animation, facing, frame), size)))
    case Farm => if a.farm.Some? then Ok((FarmTexture, a.farm.value)) else Err(MissingTexture("farms/farm"))
    case Turret => if a.turret.Some? then Ok((TurretTexture, a.turret.value)) else Err(MissingTexture("turrets/turret"))
  }

  // ---------------------------------------------------------------------------
  // Placement and the viewport test
  // ---------------------------------------------------------------------------

  /**
   * Where a texture of `size` is blitted for an object at `cords`: its bottom
   * edge on the bottom of the tile and its middle column on the tile's middle
   * column (both halves rounded down).
   */
  function Anchor(tileSize: nat, cords: Vec, size: Size): (p: Vec)
    ensures p.y + size.h == cords.y + tileSize
    ensures p.x + size.w / 2 == cords.x + tileSize / 2
  {
    Vec(cords.x + tileSize / 2 - size.w / 2, cords.y + tileSize - size.h)
  }

  /** The test of __draw, inclusive at both ends. */
  predicate Visible(cfg: Config, offset: Vec, size: Size, pos: Vec) {
    && -(size.w as int) <= pos.x + offset.x <= cfg.screenX
    && -(size.h as int) <= pos.y + offset.y <= cfg.screenY
  }

  /** A blit whose screen position passes the viewport test. */
  predicate InView(cfg: Config, b: Blit) {
    && -(b.size.w as int) <= b.pos.x <= cfg.screenX
    && -(b.size.h as int) <= b.pos.y <= cfg.screenY
  }

  /** __draw: blit at pos + offset when the test passes, otherwise nothing. */
  function Cull(cfg: Config, offset: Vec, sprite: Sprite, size: Size, pos: Vec): (bs: seq<Blit>)
    ensures |bs| <= 1
    ensures |bs| == 1 <==> Visible(cfg, offset, size, pos)
    ensures forall i :: 0 <= i < |bs| ==>
              bs[i] == Blit(sprite, size, Vec(pos.x + offset.x, pos.y + offset.y)) && InView(cfg, bs[i])
  {
    if Visible(cfg, offset, size, pos) then [Blit(sprite, size, Vec(pos.x + offset.x, pos.y + offset.y))] else []
  }

  /** Point p of the screen lies in the closed box of a texture placed at q. */
  predicate Covers(q: Vec, size: Size, p: Vec) {
    q.x <= p.x <= q.x + size.w && q.y <= p.y <= q.y + size.h
  }

  predicate OnScreen(cfg: Config, p: Vec) {
    0 <= p.x <= cfg.screenX && 0 <= p.y <= cfg.screenY
  }

  /**
   * The viewport test keeps exactly the textures whose closed box, moved by the
   * camera offset, touches the closed screen rectangle.
   */
  lemma VisibleIffTouchesScreen(cfg: Config, offset: Vec, size: Size, pos: Vec)
    ensures var q := Vec(pos.x + offset.x, pos.y + offset.y);
            Visible(cfg, offset, size, pos) <==> exists p :: Covers(q, size, p) && OnScreen(cfg, p)
  {
    var q := Vec(pos.x + offset.x, pos.y + offset.y);
    if Visible(cfg, offset, size, pos) {
      var p := Vec(if q.x < 0 then 0 else q.x, if q.y < 0 then 0 else q.y);
      assert Covers(q, size, p) && OnScreen(cfg, p);
    }
  }

  // ---------------------------------------------------------------------------
  // Health bar
  // ---------------------------------------------------------------------------

  /** Width of the red background bar: half the soldier texture, rounded down. */
  function BackWidth(spriteWidth: nat): nat {
    spriteWidth / 2
  }

  /** Width of the green bar: hp_rate times the background width, truncated, not clamped. */
  function FrontWidth(spriteWidth: nat, hpRate: real): int {
    Trunc(hpRate * BackWidth(spriteWidth) as real)
  }

  /** The two bars at cords + (1, -4), background first; a negative width raises. */
  function HealthBars(cfg: Config, offset: Vec, cords: Vec, spriteWidth: nat, hpRate: real): (d: Drawn)
    ensures d.err.Some? <==> FrontWidth(spriteWidth, hpRate) < 0
    ensures forall i :: 0 <= i < |d.blits| ==>
              && d.blits[i].pos == Vec(cords.x + 1 + offset.x, cords.y - 4 + offset.y)
              && (d.blits[i].sprite == HealthBarBack || d.blits[i].sprite == HealthBarFront)
              && (d.blits[i].sprite == HealthBarBack ==> d.blits[i].size == Size(BackWidth(spriteWidth), 1))
              && (d.blits[i].sprite == HealthBarFront ==>
                    d.blits[i].size.w == FrontWidth(spriteWidth, hpRate) && d.blits[i].size.h == 1)
    ensures forall i, j :: 0 <= i < j < |d.blits| ==>
              d.blits[i].sprite == HealthBarBack && d.blits[j].sprite == HealthBarFront
    ensures var at := Vec(cords.x + 1, cords.y - 4);
            var back := Size(BackWidth(spriteWidth), 1);
            Blit(HealthBarBack, back, Vec(at.x + offset.x, at.y + offset.y)) in d.blits <==> Visible(cfg, offset, back, at)
    ensures var at := Vec(cords.x + 1, cords.y - 4);
            var front := FrontWidth(spriteWidth, hpRate);
            front >= 0 ==>
              var blit := Blit(HealthBarFront, Size(front, 1), Vec(at.x + offset.x, at.y + offset.y));
              (blit in d.blits <==> Visible(cfg, offset, Size(front, 1), at))
    ensures FrontWidth(spriteWidth, hpRate) < 0 ==> forall i :: 0 <= i < |d.blits| ==> d.blits[i].sprite == HealthBarBack
  {
    var at := Vec(cords.x + 1, cords.y - 4);
    var back := Cull(cfg, offset, HealthBarBack, Size(BackWidth(spriteWidth), 1), at);
    var front := FrontWidth(spriteWidth, hpRate);
    if front < 0 then Drawn(back, Some(InvalidSurfaceSize(front)))
    else Drawn(back + Cull(cfg, offset, HealthBarFront, Size(front, 1), at), None)
  }

  lemma ScaleWithinUnit(x: real, y: real)
    requires 0.0 <= x <= 1.0 && 0.0 <= y
    ensures 0.0 <= x * y <= y
  {
    assert x * y <= 1.0 * y by {
      assert (1.0 - x) * y >= 0.0;
    }
  }

  lemma TruncWithin(x: real, n: nat)
    requires 0.0 <= x <= n as real
    ensures 0 <= Trunc(x) <= n
  {
    assert Trunc(x) as real <= x;
  }

  lemma HalfOf(b: nat)
    ensures Trunc(0.5 * b as real) == b / 2
  {
    var q, r := b / 2, b % 2;
    assert b == 2 * q + r && 0 <= r < 2;
    assert b as real == 2.0 * q as real + r as real;
    assert 0.5 * b as real == q as real + 0.5 * r as real;
  }

  /** For a health ratio in [0, 1] the green bar fits inside the red one. */
  lemma FrontWithinBack(spriteWidth: nat, hpRate: real)
    requires 0.0 <= hpRate <= 1.0
    ensures 0 <= FrontWidth(spriteWidth, hpRate) <= BackWidth(spriteWidth)
    ensures hpRate == 1.0 ==> FrontWidth(spriteWidth, hpRate) == BackWidth(spriteWidth)
    ensures hpRate == 0.5 ==> FrontWidth(spriteWidth, hpRate) == BackWidth(spriteWidth) / 2
  {
    var b := BackWidth(spriteWidth);
    var y := b as real;
    ScaleWithinUnit(hpRate, y);
    var x := hpRate * y;
    assert 0.0 <= x <= y;
    TruncWithin(x, b);
    assert FrontWidth(spriteWidth, hpRate) == Trunc(x);
    if hpRate == 0.5 {
      HalfOf(b);
    }
  }

  /** The green bar is not clamped: a ratio above one draws it wider than the red bar. */
  lemma FrontNotClamped()
    ensures BackWidth(4) == 2 && FrontWidth(4, 2.0) == 4
  {
    assert 2.0 * 2 as real == 4.0;
  }

  // ---------------------------------------------------------------------------
  // Info tab
  // ---------------------------------------------------------------------------

  /** The text of one stat line, `f'{name}: {info}'`. */
  function StatText(stat: (string, string)): string {
    stat.0 + ": " + stat.1
  }

  function StatTexts(stats: seq<(string, string)>): (texts: seq<string>)
    ensures |texts| == |stats|
  {
    seq(|stats|, i requires 0 <= i < |stats| => StatText(stats[i]))
  }

  function TextSizes(textSize: string -> Size, texts: seq<string>): (sizes: seq<Size>)
    ensures |sizes| == |texts|
  {
    seq(|texts|, i requires 0 <= i < |texts| => textSize(texts[i]))
  }

  /** The widest line. */
  function MaxWidth(sizes: seq<Size>): (w: nat)
    requires |sizes| > 0
    ensures forall i :: 0 <= i < |sizes| ==> sizes[i].w <= w
    ensures exists i :: 0 <= i < |sizes| && sizes[i].w == w
  {
    if |sizes| == 1 then sizes[0].w
    else
      var w := MaxWidth(sizes[..|sizes| - 1]);
      assert forall i :: 0 <= i < |sizes| - 1 ==> sizes[..|sizes| - 1][i] == sizes[i];
      if sizes[|sizes| - 1].w > w then sizes[|sizes| - 1].w else w
  }

  /** The widest of the first i + 1 lines, from the widest of the first i. */
  lemma MaxWidthStep(sizes: seq<Size>, i: nat)
    requires 0 < i < |sizes|
    ensures MaxWidth(sizes[..i + 1]) ==
              if sizes[i].w > MaxWidth(sizes[..i]) then sizes[i].w else MaxWidth(sizes[..i])
  {
    assert sizes[..i + 1][..i] == sizes[..i];
  }

  /** Total height of the lines. */
  function SumHeights(sizes: seq<Size>): nat {
    if sizes == [] then 0 else SumHeights(sizes[..|sizes| - 1]) + sizes[|sizes| - 1].h
  }

  /** Line i sits below all earlier lines: at the sum of their heights. */
  function TabLayout(texts: seq<string>, sizes: seq<Size>): (lines: seq<TabLine>)
    requires |texts| == |sizes|
    ensures |lines| == |sizes|
  {
    seq(|sizes|, i requires 0 <= i < |sizes| => TabLine(texts[i], sizes[i], SumHeights(sizes[..i])))
  }

  lemma SumHeightsStep(sizes: seq<Size>, i: nat)
    requires i < |sizes|
    ensures SumHeights(sizes[..i + 1]) == SumHeights(sizes[..i]) + sizes[i].h
  {
    assert sizes[..i + 1][..i] == sizes[..i];
  }

  lemma {:induction false} SumHeightsMonotone(sizes: seq<Size>, i: nat, j: nat)
    requires i <= j <= |sizes|
    ensures SumHeights(sizes[..i]) <= SumHeights(sizes[..j])
    decreases j - i
  {
    if i < j {
      SumHeightsStep(sizes, j - 1);
      SumHeightsMonotone(sizes, i, j - 1);
    }
  }

  /**
   * The lines of a tab are stacked without gap or overlap: the first starts at
   * the top, each starts where the one before ends, a later line never starts
   * above the end of an earlier one, and the last ends at the tab's height.
   * Every line fits in the tab's width.
   */
  lemma {:induction false} TabLinesStack(texts: seq<string>, sizes: seq<Size>)
    requires |texts| == |sizes| > 0
    ensures var lines := TabLayout(texts, sizes);
            && lines[0].y == 0
            && (forall i :: 0 <= i < |lines| - 1 ==> lines[i].y + lines[i].size.h == lines[i + 1].y)
            && (forall i, j :: 0 <= i < j < |lines| ==> lines[i].y + lines[i].size.h <= lines[j].y)
            && lines[|lines| - 1].y + lines[|lines| - 1].size.h == SumHeights(sizes)
            && (forall i :: 0 <= i < |lines| ==> lines[i].size.w <= MaxWidth(sizes))
  {
    var lines := TabLayout(texts, sizes);
    assert sizes[..0] == [];
    forall i | 0 <= i < |lines| - 1
      ensures lines[i].y + lines[i].size.h == lines[i + 1].y
    {
      SumHeightsStep(sizes, i);
    }
    forall i, j | 0 <= i < j < |lines|
      ensures lines[i].y + lines[i].size.h <= lines[j].y
    {
      SumHeightsStep(sizes, i);
      SumHeightsMonotone(sizes, i + 1, j);
    }
    SumHeightsStep(sizes, |sizes| - 1);
    assert sizes[..|sizes|] == sizes;
  }

  /**
   * Width of the cleared strip at the tab's left edge:
   * W * (1 - min(1, select_time / INFO_TAB_SHOW_TIME)), truncated by Rect.
   * Only evaluated while the object is selected (select_time > 0).
   */
  function MaskWidth(tabWidth: nat, selectTime: real, showTime: real): (m: nat)
    requires showTime > 0.0 && selectTime > 0.0
    ensures m <= tabWidth
    ensures tabWidth > 0 ==> m < tabWidth
    ensures selectTime >= showTime ==> m == 0
  {
    Cleared(tabWidth, ShownFraction(selectTime, showTime))
  }

  /** The columns of a tab `w` wide left covered when the fraction `f` is shown. */
  function Cleared(w: nat, f: real): (m: nat)
    requires 0.0 < f <= 1.0
    ensures m <= w
    ensures w > 0 ==> m < w
    ensures f == 1.0 ==> m == 0
  {
    var v := w as real * (1.0 - f);
    assert 0.0 <= v <= w as real by {
      assert w as real * (1.0 - f) <= w as real * 1.0;
    }
    assert w > 0 ==> v < w as real by {
      if w > 0 {
        assert w as real * f > 0.0;
      }
    }
    Trunc(v)
  }

  /** min(1, select_time / INFO_TAB_SHOW_TIME): how much of the tab is uncovered. */
  function ShownFraction(selectTime: real, showTime: real): (f: real)
    requires showTime > 0.0 && selectTime > 0.0
    ensures 0.0 < f <= 1.0
    ensures selectTime >= showTime <==> f == 1.0
  {
    assert selectTime >= showTime <==> selectTime / showTime >= 1.0;
    Min(1.0, selectTime / showTime)
  }

  lemma ShownFractionGrows(t1: real, t2: real, showTime: real)
    requires showTime > 0.0 && 0.0 < t1 <= t2
    ensures ShownFraction(t1, showTime) <= ShownFraction(t2, showTime)
  {
    assert t2 / showTime - t1 / showTime == (t2 - t1) / showTime;
  }

  /** Truncation of non-negative reals keeps their order. */
  lemma TruncMonotone(x: real, y: real)
    requires 0.0 <= x <= y
    ensures Trunc(x) <= Trunc(y)
  {
    assert Trunc(x) as real <= x < Trunc(y) as real + 1.0;
  }

  /** A larger uncovered fraction leaves a narrower cleared strip. */
  lemma ClearedShrinks(w: nat, f1: real, f2: real)
    requires 0.0 < f1 <= f2 <= 1.0
    ensures Cleared(w, f2) <= Cleared(w, f1)
  {
    var x, y := w as real * (1.0 - f2), w as real * (1.0 - f1);
    assert 0.0 <= x <= y by {
      assert y - x == w as real * (f2 - f1);
    }
    TruncMonotone(x, y);
  }

  /** The cleared strip never widens as the selection time grows. */
  lemma MaskWidthShrinks(tabWidth: nat, t1: real, t2: real, showTime: real)
    requires showTime > 0.0 && 0.0 < t1 <= t2
    ensures MaskWidth(tabWidth, t2, showTime) <= MaskWidth(tabWidth, t1, showTime)
  {
    ShownFractionGrows(t1, t2, showTime);
    ClearedShrinks(tabWidth, ShownFraction(t1, showTime), ShownFraction(t2, showTime));
  }

  /** The tab sprite and its size; no stats means max() of nothing, which raises. */
  function InfoTabSprite(env: Env, obj: RenderObject): Result<(Sprite, Size), DrawError>
    requires ValidConfig(env.cfg) && obj.selectTime > 0.0
  {
    if obj.stats == [] then Err(EmptyStats)
    else
      var texts := StatTexts(obj.stats);
      var sizes := TextSizes(env.textSize, texts);
      var size := Size(MaxWidth(sizes), SumHeights(sizes));
      var mask := MaskWidth(size.w, obj.selectTime, env.cfg.infoTabShowTime);
      Ok((InfoTab(TabLayout(texts, sizes), mask, KindLayer(obj.kind)), size))
  }

  /** The tab is drawn with its right edge at the object's x: at cords - (W, 0). */
  function InfoTabDrawing(env: Env, offset: Vec, obj: RenderObject): (d: Drawn)
    requires ValidConfig(env.cfg) && obj.selectTime > 0.0
    ensures d.err.Some? <==> obj.stats == []
    ensures obj.stats == [] ==> d == Drawn([], Some(EmptyStats))
    ensures |d.blits| <= 1
    ensures forall i :: 0 <= i < |d.blits| ==>
              var sizes := TextSizes(env.textSize, StatTexts(obj.stats));
              && d.blits[i].sprite.InfoTab?
              && d.blits[i].size == Size(MaxWidth(sizes), SumHeights(sizes))
              && d.blits[i].pos.x + d.blits[i].size.w == obj.cords.x + offset.x
              && d.blits[i].pos.y == obj.cords.y + offset.y
    ensures obj.stats != [] ==>
              var texts := StatTexts(obj.stats);
              var sizes := TextSizes(env.textSize, texts);
              var size := Size(MaxWidth(sizes), SumHeights(sizes));
              var at := Vec(obj.cords.x - size.w, obj.cords.y);
              var mask := MaskWidth(size.w, obj.selectTime, env.cfg.infoTabShowTime);
              && (|d.blits| == 1 <==> Visible(env.cfg, offset, size, at))
              && forall i :: 0 <= i < |d.blits| ==>
                   d.blits[i].sprite == InfoTab(TabLayout(texts, sizes), mask, KindLayer(obj.kind))
  {
    match InfoTabSprite(env, obj)
    case Err(e) => Drawn([], Some(e))
    case Ok(tab) => Drawn(Cull(env.cfg, offset, tab.0, tab.1, Vec(obj.cords.x - tab.1.w, obj.cords.y)), None)
  }

  // ---------------------------------------------------------------------------
  // Objects, particles, frame
  // ---------------------------------------------------------------------------

  /** __draw_object_rt: texture, then the soldier's bars, then the info tab if selected. */
  function ObjectDrawing(env: Env, offset: Vec, obj: RenderObject): Drawn
    requires ValidConfig(env.cfg)
  {
    match Texture(env.assets, obj.kind)
    case Err(e) => Drawn([], Some(e))
    case Ok(t) =>
      var body := Drawn(Cull(env.cfg, offset, t.0, t.1, Anchor(env.cfg.tileSize, obj.cords, t.1)), None);
      var bars := if obj.kind.Soldier? then HealthBars(env.cfg, offset, obj.cords, t.1.w, obj.kind.hpRate)
                  else Drawn([], None);
      var tab := if obj.selectTime > 0.0 then InfoTabDrawing(env, offset, obj) else Drawn([], None);
      Then(Then(body, bars), tab)
  }

  /** Objects drawn in list order; the first error stops the frame. */
  function DrawAll(env: Env, offset: Vec, objs: seq<RenderObject>): Drawn
    requires ValidConfig(env.cfg)
  {
    if objs == [] then Drawn([], None)
    else Then(DrawAll(env, offset, objs[..|objs| - 1]), ObjectDrawing(env, offset, objs[|objs| - 1]))
  }

  /** __draw_particle: a square of the particle's size and colour at its position. */
  function ParticleDrawing(cfg: Config, offset: Vec, p: Particle): seq<Blit> {
    Cull(cfg, offset, ParticleSquare(p.color), Size(p.size, p.size), p.pos)
  }

  function ParticlesDrawing(cfg: Config, offset: Vec, ps: seq<Particle>): seq<Blit> {
    if ps == [] then []
    else ParticlesDrawing(cfg, offset, ps[..|ps| - 1]) + ParticleDrawing(cfg, offset, ps[|ps| - 1])
  }

  /** The draw phase of render: map at the camera offset, soldiers, turrets, farms, particles. */
  function Frame(env: Env, mapTexture: Size, view: View): Drawn
    requires ValidConfig(env.cfg)
  {
    var ground := Drawn([Blit(MapTexture, mapTexture, view.offset)], None);
    var soldiers := Then(ground, DrawAll(env, view.offset, view.soldiers));
    var turrets := Then(soldiers, DrawAll(env, view.offset, view.turrets));
    var farms := Then(turrets, DrawAll(env, view.offset, view.farms));
    Then(farms, Drawn(ParticlesDrawing(env.cfg, view.offset, view.particles), None))
  }

  /** One more object drawn after a prefix of the list. */
  lemma DrawAllStep(env: Env, offset: Vec, objs: seq<RenderObject>, i: nat)
    requires ValidConfig(env.cfg) && i < |objs|
    ensures DrawAll(env, offset, objs[..i + 1]) ==
              Then(DrawAll(env, offset, objs[..i]), ObjectDrawing(env, offset, objs[i]))
  {
    assert objs[..i + 1][..i] == objs[..i] && objs[..i + 1][i] == objs[i];
  }

  lemma ParticlesStep(cfg: Config, offset: Vec, ps: seq<Particle>, i: nat)
    requires i < |ps|
    ensures ParticlesDrawing(cfg, offset, ps[..i + 1]) ==
              ParticlesDrawing(cfg, offset, ps[..i]) + ParticleDrawing(cfg, offset, ps[i])
  {
    assert ps[..i + 1][..i] == ps[..i] && ps[..i + 1][i] == ps[i];
  }

  lemma AppendAssoc(a: seq<Blit>, b: seq<Blit>, c: seq<Blit>)
    ensures (a + b) + c == a + (b + c)
  {
  }

  /** After the first failing object, later objects are never drawn. */
  lemma {:induction false} DrawAllStops(env: Env, offset: Vec, objs: seq<RenderObject>, n: nat)
    requires ValidConfig(env.cfg)
    requires n <= |objs| && DrawAll(env, offset, objs[..n]).err.Some?
    ensures DrawAll(env, offset, objs) == DrawAll(env, offset, objs[..n])
    decreases |objs| - n
  {
    if n < |objs| {
      var init := objs[..|objs| - 1];
      assert init[..n] == objs[..n];
      DrawAllStops(env, offset, init, n);
      assert DrawAll(env, offset, init).err.Some?;
      assert DrawAll(env, offset, objs) == Then(DrawAll(env, offset, init), ObjectDrawing(env, offset, objs[|objs| - 1]));
    } else {
      assert objs[..n] == objs;
    }
  }

  // ---------------------------------------------------------------------------
  // Frame properties: layer order and culling
  // ---------------------------------------------------------------------------

  /** The layer an object kind is drawn in. */
  function KindLayer(kind: Kind): nat {
    match kind
    case Soldier(_, _, _, _, _) => 1
    case Turret => 2
    case Farm => 3
  }

  /** The layer of a sprite; an info tab belongs to the layer of the object it describes. */
  function Layer(s: Sprite): nat {
    match s
    case MapTexture => 0
    case SoldierFrame(_, _, _, _) => 1
    case HealthBarBack => 1
    case HealthBarFront => 1
    case TurretTexture => 2
    case FarmTexture => 3
    case ParticleSquare(_) => 4
    case InfoTab(_, _, owner) => owner
  }

  predicate InLayer(bs: seq<Blit>, l: nat) {
    forall i :: 0 <= i < |bs| ==> Layer(bs[i].sprite) == l
  }

  predicate AtMostLayer(bs: seq<Blit>, l: nat) {
    forall i :: 0 <= i < |bs| ==> Layer(bs[i].sprite) <= l
  }

  /** Later blits never belong to an earlier layer. */
  predicate Layered(bs: seq<Blit>) {
    forall i, j :: 0 <= i < j < |bs| ==> Layer(bs[i].sprite) <= Layer(bs[j].sprite)
  }

  predicate AllInView(cfg: Config, bs: seq<Blit>) {
    forall i :: 0 <= i < |bs| ==> InView(cfg, bs[i])
  }

  lemma InLayerAppend(a: seq<Blit>, b: seq<Blit>, l: nat, cfg: Config)
    requires InLayer(a, l) && InLayer(b, l) && AllInView(cfg, a) && AllInView(cfg, b)
    ensures InLayer(a + b, l) && AllInView(cfg, a + b)
  {
  }

  /** The info tab is all the tab part of an object's drawing can contribute, in its owner's layer. */
  lemma TabPart(env: Env, offset: Vec, obj: RenderObject)
    requires ValidConfig(env.cfg) && obj.selectTime > 0.0
    ensures var bs := InfoTabDrawing(env, offset, obj).blits;
            forall i :: 0 <= i < |bs| ==>
              bs[i].sprite.InfoTab? && Layer(bs[i].sprite) == KindLayer(obj.kind) && InView(env.cfg, bs[i])
  {
  }

  /** A culled blit stays in its sprite's layer and inside the view. */
  lemma CullPart(cfg: Config, offset: Vec, sprite: Sprite, size: Size, pos: Vec)
    ensures InLayer(Cull(cfg, offset, sprite, size, pos), Layer(sprite))
    ensures AllInView(cfg, Cull(cfg, offset, sprite, size, pos))
  {
  }

  /** Both health bars are in the soldiers' layer and inside the view. */
  lemma BarsPart(cfg: Config, offset: Vec, cords: Vec, spriteWidth: nat, hpRate: real)
    requires ValidConfig(cfg)
    ensures InLayer(HealthBars(cfg, offset, cords, spriteWidth, hpRate).blits, 1)
    ensures AllInView(cfg, HealthBars(cfg, offset, cords, spriteWidth, hpRate).blits)
  {
  }

  lemma ObjectInLayer(env: Env, offset: Vec, obj: RenderObject)
    requires ValidConfig(env.cfg)
    ensures InLayer(ObjectDrawing(env, offset, obj).blits, KindLayer(obj.kind))
    ensures AllInView(env.cfg, ObjectDrawing(env, offset, obj).blits)
  {
    var t := Texture(env.assets, obj.kind);
    if t.Ok? {
      var l := KindLayer(obj.kind);
      var body := Cull(env.cfg, offset, t.value.0, t.value.1, Anchor(env.cfg.tileSize, obj.cords, t.value.1));
      var bars := if obj.kind.Soldier? then HealthBars(env.cfg, offset, obj.cords, t.value.1.w, obj.kind.hpRate)
                  else Drawn([], None);
      var tab := if obj.selectTime > 0.0 then InfoTabDrawing(env, offset, obj) else Drawn([], None);
      assert ObjectDrawing(env, offset, obj) == Then(Then(Drawn(body, None), bars), tab);
      CullPart(env.cfg, offset, t.value.0, t.value.1, Anchor(env.cfg.tileSize, obj.cords, t.value.1));
      if obj.kind.Soldier? {
        BarsPart(env.cfg, offset, obj.cords, t.value.1.w, obj.kind.hpRate);
      }
      if obj.selectTime > 0.0 {
        TabPart(env, offset, obj);
      }
      assert InLayer(tab.blits, l) && AllInView(env.cfg, tab.blits);
      InLayerAppend(body, bars.blits, l, env.cfg);
      InLayerAppend(body + bars.blits, tab.blits, l, env.cfg);
    }
  }

  /** Only soldiers get health bars. */
  lemma BarsOnlyForSoldiers(env: Env, offset: Vec, obj: RenderObject)
    requires ValidConfig(env.cfg) && !obj.kind.Soldier?
    ensures forall i :: 0 <= i < |ObjectDrawing(env, offset, obj).blits| ==>
              var s := ObjectDrawing(env, offset, obj).blits[i].sprite;
              s != HealthBarBack && s != HealthBarFront
  {
    ObjectInLayer(env, offset, obj);
  }

  /** An info tab is drawn only for a selected object (select_time > 0). */
  lemma TabOnlyWhenSelected(env: Env, offset: Vec, obj: RenderObject)
    requires ValidConfig(env.cfg) && obj.selectTime <= 0.0
    ensures forall i :: 0 <= i < |ObjectDrawing(env, offset, obj).blits| ==>
              !ObjectDrawing(env, offset, obj).blits[i].sprite.InfoTab?
  {
    var t := Texture(env.assets, obj.kind);
    if t.Ok? {
      var body := Cull(env.cfg, offset, t.value.0, t.value.1, Anchor(env.cfg.tileSize, obj.cords, t.value.1));
      var bars := if obj.kind.Soldier? then HealthBars(env.cfg, offset, obj.cords, t.value.1.w, obj.kind.hpRate)
                  else Drawn([], None);
      assert ObjectDrawing(env, offset, obj) == Then(Then(Drawn(body, None), bars), Drawn([], None));
      assert body + bars.blits + [] == body + bars.blits;
    }
  }

  lemma {:induction false} DrawAllInLayer(env: Env, offset: Vec, objs: seq<RenderObject>, l: nat)
    requires ValidConfig(env.cfg)
    requires forall k :: 0 <= k < |objs| ==> KindLayer(objs[k].kind) == l
    ensures InLayer(DrawAll(env, offset, objs).blits, l)
    ensures AllInView(env.cfg, DrawAll(env, offset, objs).blits)
    decreases |objs|
  {
    if objs != [] {
      var init := objs[..|objs| - 1];
      DrawAllInLayer(env, offset, init, l);
      ObjectInLayer(env, offset, objs[|objs| - 1]);
      var a := DrawAll(env, offset, init);
      var b := ObjectDrawing(env, offset, objs[|objs| - 1]);
      assert InLayer(a.blits + b.blits, l);
      assert AllInView(env.cfg, a.blits + b.blits);
    }
  }

  lemma {:induction false} ParticlesInLayer(cfg: Config, offset: Vec, ps: seq<Particle>)
    ensures InLayer(ParticlesDrawing(cfg, offset, ps), 4)
    ensures AllInView(cfg, ParticlesDrawing(cfg, offset, ps))
    decreases |ps|
  {
    if ps != [] {
      ParticlesInLayer(cfg, offset, ps[..|ps| - 1]);
      var a := ParticlesDrawing(cfg, offset, ps[..|ps| - 1]);
      var b := ParticleDrawing(cfg, offset, ps[|ps| - 1]);
      assert InLayer(a + b, 4);
      assert AllInView(cfg, a + b);
    }
  }

  /** Appending a part drawn in layer l after parts in layers up to l keeps the order. */
  lemma ThenLayered(a: Drawn, b: Drawn, l: nat)
    requires Layered(a.blits) && AtMostLayer(a.blits, l) && InLayer(b.blits, l)
    ensures Layered(Then(a, b).blits) && AtMostLayer(Then(a, b).blits, l)
    ensures |Then(a, b).blits| >= |a.blits|
    ensures forall i :: 0 <= i < |a.blits| ==> Then(a, b).blits[i] == a.blits[i]
    ensures forall i :: |a.blits| <= i < |Then(a, b).blits| ==> Then(a, b).blits[i] == b.blits[i - |a.blits|]
  {
  }

  /**
   * Layer order of a frame: the map comes first and only once; after it every
   * soldier blit (texture and bars) precedes every turret texture, which
   * precedes every farm texture, which precedes every particle; and every blit
   * after the map passed the viewport test.
   */
  lemma FrameLayered(env: Env, mapTexture: Size, view: View)
    requires ValidConfig(env.cfg)
    requires forall k :: 0 <= k < |view.soldiers| ==> view.soldiers[k].kind.Soldier?
    requires forall k :: 0 <= k < |view.turrets| ==> view.turrets[k].kind.Turret?
    requires forall k :: 0 <= k < |view.farms| ==> view.farms[k].kind.Farm?
    ensures var bs := Frame(env, mapTexture, view).blits;
            && |bs| > 0 && bs[0] == Blit(MapTexture, mapTexture, view.offset)
            && (forall i :: 0 < i < |bs| ==> !bs[i].sprite.MapTexture?)
            && Layered(bs)
            && (forall i :: 0 < i < |bs| ==> InView(env.cfg, bs[i]))
  {
    var off := view.offset;
    var ground := Drawn([Blit(MapTexture, mapTexture, off)], None);
    var ds := DrawAll(env, off, view.soldiers);
    var dt := DrawAll(env, off, view.turrets);
    var df := DrawAll(env, off, view.farms);
    var dp := Drawn(ParticlesDrawing(env.cfg, off, view.particles), None);
    DrawAllInLayer(env, off, view.soldiers, 1);
    DrawAllInLayer(env, off, view.turrets, 2);
    DrawAllInLayer(env, off, view.farms, 3);
    ParticlesInLayer(env.cfg, off, view.particles);
    var s := Then(ground, ds);
    ThenLayered(ground, ds, 1);
    var t := Then(s, dt);
    ThenLayered(s, dt, 2);
    var f := Then(t, df);
    ThenLayered(t, df, 3);
    var p := Then(f, dp);
    ThenLayered(f, dp, 4);
    assert p == Frame(env, mapTexture, view);
    var bs := p.blits;
    forall i | 0 < i < |bs|
      ensures !bs[i].sprite.MapTexture? && InView(env.cfg, bs[i])
    {
      if i < |s.blits| {
        assert bs[i] == ds.blits[i - 1];
      } else if i < |t.blits| {
        assert bs[i] == dt.blits[i - |s.blits|];
      } else if i < |f.blits| {
        assert bs[i] == df.blits[i - |t.blits|];
      } else {
        assert bs[i] == dp.blits[i - |f.blits|];
      }
    }
  }
}
