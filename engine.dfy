/**
 * Engine of packages/graphics/engine.py as a heap object. One call to Render
 * updates the collaborators in a fixed order, clears the draw screen, blits
 * the map, and then draws soldiers, turrets, farms and particles through the
 * culling helper Draw.
 *
 * The collaborators (camera, trackers, particle controller, asset loader,
 * font renderer, map renderer) are not modelled. Their state after updating
 * arrives as a View, and Render records each call it makes to them in an
 * update log. The draw screen is the list of blits made since the last clear.
 */
module Engine {
  import opened Wrappers
  import opened EngineDraw

  /** The game entities handed to the trackers, by identity. */
  datatype Game = Game(soldiers: seq<nat>, turrets: seq<nat>, farms: seq<nat>)

  /** A call render makes to a collaborator before drawing. */
  datatype Update =
    | CameraUpdate
    | SoldiersReconcile(soldiers: seq<nat>)
    | SoldiersUpdate(speed: real, mouse: Vec)
    | TurretsReconcile(turrets: seq<nat>)
    | TurretsUpdate(speed: real, mouse: Vec)
    | FarmsReconcile(farms: seq<nat>)
    | FarmsUpdate(speed: real, mouse: Vec)
    | ParticlesUpdate(speed: real)

  /**
   * The phase an update belongs to: the camera, then for each tracker in turn
   * its reconcile and its per-entity update, then the particles.
   */
  function Phase(u: Update): nat {
    match u
    case CameraUpdate => 0
    case SoldiersReconcile(_) => 1
    case SoldiersUpdate(_, _) => 2
    case TurretsReconcile(_) => 3
    case TurretsUpdate(_, _) => 4
    case FarmsReconcile(_) => 5
    case FarmsUpdate(_, _) => 6
    case ParticlesUpdate(_) => 7
  }

  /**
   * The update phase of render. The camera moves first. Each tracker is
   * reconciled with the game's entities before its entities are updated,
   * and soldiers come before turrets, which come before farms. The soldier
   * reconcile is also handed the particle controller, so that it can spawn
   * particles; those arrive with the rest of the particles in the View.
   * Particles are updated last. Every update sees the same game speed and the mouse
   * position of the moved camera.
   */
  function UpdateCalls(game: Game, speed: real, mouse: Vec): (us: seq<Update>)
    ensures |us| == 8 && us[0] == CameraUpdate && us[7] == ParticlesUpdate(speed)
    ensures forall i :: 0 <= i < |us| ==> Phase(us[i]) == i
    ensures forall i :: 0 <= i < |us| ==>
              && (us[i].SoldiersReconcile? ==> us[i].soldiers == game.soldiers)
              && (us[i].TurretsReconcile? ==> us[i].turrets == game.turrets)
              && (us[i].FarmsReconcile? ==> us[i].farms == game.farms)
              && (us[i].SoldiersUpdate? || us[i].TurretsUpdate? || us[i].FarmsUpdate? ==>
                    us[i].speed == speed && us[i].mouse == mouse)
  {
    [ CameraUpdate,
      SoldiersReconcile(game.soldiers), SoldiersUpdate(speed, mouse),
      TurretsReconcile(game.turrets), TurretsUpdate(speed, mouse),
      FarmsReconcile(game.farms), FarmsUpdate(speed, mouse),
      ParticlesUpdate(speed) ]
  }

  class Engine {
    /** Constants, textures and text sizes (the asset loader and font renderer). */
    const env: Env
    /** Size of the texture the map renderer made at construction. */
    const mapTexture: Size

    /** Blits on the draw screen since it was last cleared, in order. */
    var screen: seq<Blit>
    /** The camera offset that Draw adds. */
    var offset: Vec
    /** Every collaborator update made so far. */
    var updates: seq<Update>

    constructor (env: Env, mapTexture: Size)
      requires ValidConfig(env.cfg)
      ensures this.env == env && this.mapTexture == mapTexture
      ensures screen == [] && updates == [] && offset == Vec(0, 0)
    {
      this.env := env;
      this.mapTexture := mapTexture;
      screen := [];
      offset := Vec(0, 0);
      updates := [];
    }

    /**
     * render: update every collaborator, then draw the frame. An exception
     * while drawing leaves the partly drawn screen and is returned as Err.
     */
    method Render(game: Game, gameSpeed: real, view: View) returns (r: Result<seq<Blit>, DrawError>)
      requires ValidConfig(env.cfg)
      modifies this
      ensures updates == old(updates) + UpdateCalls(game, gameSpeed, view.mouse)
      ensures offset == view.offset
      ensures screen == Frame(env, mapTexture, view).blits
      ensures r.Ok? <==> Frame(env, mapTexture, view).err.None?
      ensures r.Ok? ==> r.value == screen
      ensures r.Err? ==> Frame(env, mapTexture, view).err == Some(r.error)
    {
      updates := updates + [CameraUpdate];
      offset := view.offset;
      updates := updates + [SoldiersReconcile(game.soldiers), SoldiersUpdate(gameSpeed, view.mouse)];
      updates := updates + [TurretsReconcile(game.turrets), TurretsUpdate(gameSpeed, view.mouse)];
      updates := updates + [FarmsReconcile(game.farms), FarmsUpdate(gameSpeed, view.mouse)];
      updates := updates + [ParticlesUpdate(gameSpeed)];
      var err := DrawFrame(view);
      r := if err.Some? then Err(err.value) else Ok(screen);
    }

    /** The draw phase of render: clear, map at the camera offset, then each tracker's objects, then particles. */
    method DrawFrame(view: View) returns (err: Option<DrawError>)
      requires ValidConfig(env.cfg) && offset == view.offset
      modifies this`screen
      ensures screen == Frame(env, mapTexture, view).blits
      ensures err == Frame(env, mapTexture, view).err
    {
      ghost var ground := Drawn([Blit(MapTexture, mapTexture, offset)], None);
      ghost var s := Then(ground, DrawAll(env, offset, view.soldiers));
      ghost var t := Then(s, DrawAll(env, offset, view.turrets));
      ghost var f := Then(t, DrawAll(env, offset, view.farms));
      ghost var p := Then(f, Drawn(ParticlesDrawing(env.cfg, offset, view.particles), None));
      assert p == Frame(env, mapTexture, view);
      screen := [];
      screen := screen + [Blit(MapTexture, mapTexture, offset)];
      err := DrawObjects(view.soldiers);
      if err.Some? {
        return;
      }
      assert screen == s.blits;
      err := DrawObjects(view.turrets);
      if err.Some? {
        return;
      }
      assert screen == t.blits;
      err := DrawObjects(view.farms);
      if err.Some? {
        return;
      }
      assert screen == f.blits;
      DrawParticles(view.particles);
    }

    /** The loop over one tracker's objects; the first exception ends it. */
    method DrawObjects(objs: seq<RenderObject>) returns (err: Option<DrawError>)
      requires ValidConfig(env.cfg)
      modifies this`screen
      ensures screen == old(screen) + DrawAll(env, offset, objs).blits
      ensures err == DrawAll(env, offset, objs).err
    {
      var i := 0;
      while i < |objs|
        invariant 0 <= i <= |objs|
        invariant DrawAll(env, offset, objs[..i]).err.None?
        invariant screen == old(screen) + DrawAll(env, offset, objs[..i]).blits
      {
        err := DrawNext(old(screen), objs, i);
        if err.Some? {
          DrawAllStops(env, offset, objs, i + 1);
          assert objs[..|objs|] == objs;
          return;
        }
        i := i + 1;
      }
      assert objs[..i] == objs;
      return None;
    }

    /** One turn of the object loop: draw object i after the objects before it. */
    method DrawNext(ghost before: seq<Blit>, objs: seq<RenderObject>, i: nat) returns (err: Option<DrawError>)
      requires ValidConfig(env.cfg) && i < |objs|
      requires DrawAll(env, offset, objs[..i]).err.None?
      requires screen == before + DrawAll(env, offset, objs[..i]).blits
      modifies this`screen
      ensures screen == before + DrawAll(env, offset, objs[..i + 1]).blits
      ensures err == DrawAll(env, offset, objs[..i + 1]).err
    {
      ghost var done := DrawAll(env, offset, objs[..i]);
      ghost var next := ObjectDrawing(env, offset, objs[i]);
      DrawAllStep(env, offset, objs, i);
      AppendAssoc(before, done.blits, next.blits);
      err := DrawObjectRt(objs[i]);
    }

    /** __draw_object_rt: texture at its anchor, soldier health bars, info tab while selected. */
    method DrawObjectRt(obj: RenderObject) returns (err: Option<DrawError>)
      requires ValidConfig(env.cfg)
      modifies this`screen
      ensures screen == old(screen) + ObjectDrawing(env, offset, obj).blits
      ensures err == ObjectDrawing(env, offset, obj).err
    {
      var t := Texture(env.assets, obj.kind);
      if t.Err? {
        return Some(t.error);
      }
      var (sprite, size) := t.value;
      ghost var start := screen;
      ghost var body := Cull(env.cfg, offset, sprite, size, Anchor(env.cfg.tileSize, obj.cords, size));
      ghost var bars := if obj.kind.Soldier? then HealthBars(env.cfg, offset, obj.cords, size.w, obj.kind.hpRate)
                        else Drawn([], None);
      ghost var tab := if obj.selectTime > 0.0 then InfoTabDrawing(env, offset, obj) else Drawn([], None);
      assert ObjectDrawing(env, offset, obj) == Then(Then(Drawn(body, None), bars), tab);
      Draw(sprite, size, Anchor(env.cfg.tileSize, obj.cords, size));
      if obj.kind.Soldier? {
        err := DrawHealthBars(obj.cords, size.w, obj.kind.hpRate);
        if err.Some? {
          return;
        }
      }
      AppendAssoc(start, body, bars.blits);
      assert screen == start + (body + bars.blits);
      if obj.selectTime > 0.0 {
        err := DrawInfoTab(obj);
        AppendAssoc(start, body + bars.blits, tab.blits);
        return;
      }
      assert tab.blits == [] && body + bars.blits + [] == body + bars.blits;
      return None;
    }

    /** The red bar, then the green bar, both at cords + (1, -4). */
    method DrawHealthBars(cords: Vec, spriteWidth: nat, hpRate: real) returns (err: Option<DrawError>)
      modifies this`screen
      ensures screen == old(screen) + HealthBars(env.cfg, offset, cords, spriteWidth, hpRate).blits
      ensures err == HealthBars(env.cfg, offset, cords, spriteWidth, hpRate).err
    {
      var back := BackWidth(spriteWidth);
      var at := Vec(cords.x + 1, cords.y - 4);
      Draw(HealthBarBack, Size(back, 1), at);
      var front := Trunc(hpRate * back as real);
      assert front == FrontWidth(spriteWidth, hpRate);
      if front < 0 {
        return Some(InvalidSurfaceSize(front));
      }
      Draw(HealthBarFront, Size(front, 1), at);
      return None;
    }

    /** The info tab: stat lines stacked, left strip cleared, right edge at the object's x. */
    method DrawInfoTab(obj: RenderObject) returns (err: Option<DrawError>)
      requires ValidConfig(env.cfg) && obj.selectTime > 0.0
      modifies this`screen
      ensures screen == old(screen) + InfoTabDrawing(env, offset, obj).blits
      ensures err == InfoTabDrawing(env, offset, obj).err
    {
      var texts := StatTexts(obj.stats);
      var sizes := TextSizes(env.textSize, texts);
      if sizes == [] {
        return Some(EmptyStats);
      }
      var width := WidestLine(sizes);
      var height := TotalHeight(sizes);
      var size := Size(width, height);
      var lines := LayOutLines(texts, sizes);
      var mask := MaskWidth(size.w, obj.selectTime, env.cfg.infoTabShowTime);
      Draw(InfoTab(lines, mask, KindLayer(obj.kind)), size, Vec(obj.cords.x - size.w, obj.cords.y));
      return None;
    }

    /** The tab's width: the widest line. */
    method WidestLine(sizes: seq<Size>) returns (width: nat)
      requires |sizes| > 0
      ensures width == MaxWidth(sizes)
    {
      width := sizes[0].w;
      var i := 1;
      assert sizes[..1] == [sizes[0]];
      while i < |sizes|
        invariant 1 <= i <= |sizes|
        invariant width == MaxWidth(sizes[..i])
      {
        MaxWidthStep(sizes, i);
        if sizes[i].w > width {
          width := sizes[i].w;
        }
        i := i + 1;
      }
      assert sizes[..i] == sizes;
    }

    /** The tab's height: the sum of the line heights. */
    method TotalHeight(sizes: seq<Size>) returns (height: nat)
      ensures height == SumHeights(sizes)
    {
      height := 0;
      var i := 0;
      while i < |sizes|
        invariant 0 <= i <= |sizes|
        invariant height == SumHeights(sizes[..i])
      {
        SumHeightsStep(sizes, i);
        height := height + sizes[i].h;
        i := i + 1;
      }
      assert sizes[..i] == sizes;
    }

    /** The lines blitted into the tab, each at the sum of the heights of the lines before it. */
    method LayOutLines(texts: seq<string>, sizes: seq<Size>) returns (lines: seq<TabLine>)
      requires |texts| == |sizes|
      ensures lines == TabLayout(texts, sizes)
    {
      lines := [];
      var i := 0;
      while i < |sizes|
        invariant 0 <= i <= |sizes|
        invariant |lines| == i
        invariant forall j :: 0 <= j < i ==> lines[j] == TabLine(texts[j], sizes[j], SumHeights(sizes[..j]))
      {
        var y := TotalHeight(sizes[..i]);
        lines := lines + [TabLine(texts[i], sizes[i], y)];
        i := i + 1;
      }
    }

    /** The particle loop. */
    method DrawParticles(ps: seq<Particle>)
      modifies this`screen
      ensures screen == old(screen) + ParticlesDrawing(env.cfg, offset, ps)
    {
      var i := 0;
      while i < |ps|
        invariant 0 <= i <= |ps|
        invariant screen == old(screen) + ParticlesDrawing(env.cfg, offset, ps[..i])
      {
        ParticlesStep(env.cfg, offset, ps, i);
        DrawParticle(ps[i]);
        i := i + 1;
      }
      assert ps[..i] == ps;
    }

    /** __draw_particle: a size-by-size square of the particle's colour at its position. */
    method DrawParticle(p: Particle)
      modifies this`screen
      ensures screen == old(screen) + ParticleDrawing(env.cfg, offset, p)
    {
      Draw(ParticleSquare(p.color), Size(p.size, p.size), p.pos);
    }

    /** __draw: blit at pos + offset when the texture touches the screen; otherwise nothing. */
    method Draw(sprite: Sprite, size: Size, pos: Vec)
      modifies this`screen
      ensures screen == old(screen) + Cull(env.cfg, offset, sprite, size, pos)
    {
      if -(size.w as int) <= pos.x + offset.x <= env.cfg.screenX
         && -(size.h as int) <= pos.y + offset.y <= env.cfg.screenY {
        screen := screen + [Blit(sprite, size, Vec(pos.x + offset.x, pos.y + offset.y))];
      }
    }
  }
}
