/** The `update` system and the `MainCamera` component: every tick, each held
    key that is bound to a direction moves the camera one fixed step along one
    axis. The step is 0.01 world units; translations are counted in steps, so
    the model is exact where the source adds floats. */
module FlyCamera {

  /** The keys the bindings use, and every other key of the keyboard. */
  datatype KeyCode = W | A | S | D | Z | X | Other(scanCode: nat)

  /** The key bound to each of the six movement fields. */
  datatype MainCamera = MainCamera(w: KeyCode, a: KeyCode, s: KeyCode, d: KeyCode, z: KeyCode, x: KeyCode)

  /** A camera translation, in steps of 0.01 world units. */
  datatype Translation = Translation(x: int, y: int, z: int)

  const Origin := Translation(0, 0, 0)

  function Add(t: Translation, u: Translation): Translation {
    Translation(t.x + u.x, t.y + u.y, t.z + u.z)
  }

  function Scale(n: nat, t: Translation): Translation {
    Translation(n * t.x, n * t.y, n * t.z)
  }

  /** No two movement fields share a key. */
  predicate DistinctBindings(cam: MainCamera) {
    && cam.w != cam.a && cam.w != cam.s && cam.w != cam.d && cam.w != cam.z && cam.w != cam.x
    && cam.a != cam.s && cam.a != cam.d && cam.a != cam.z && cam.a != cam.x
    && cam.s != cam.d && cam.s != cam.z && cam.s != cam.x
    && cam.d != cam.z && cam.d != cam.x
    && cam.z != cam.x
  }

  predicate IsBound(cam: MainCamera, k: KeyCode) {
    k == cam.w || k == cam.a || k == cam.s || k == cam.d || k == cam.z || k == cam.x
  }

  /** `MainCamera::default()`: W, A, S, D, Z and X on the fields of the same name. */
  function DefaultBindings(): (cam: MainCamera)
    ensures DistinctBindings(cam)
    ensures forall k :: IsBound(cam, k) <==> k in {W, A, S, D, Z, X}
  {
    MainCamera(W, A, S, D, Z, X)
  }

  function Unit(held: bool): int { if held then 1 else 0 }

  /** The movement along one axis in one tick: +1 for the key that moves
      forward along it, -1 for the key that moves backward along it. */
  function AxisMove(forward: KeyCode, backward: KeyCode, held: set<KeyCode>): int {
    Unit(forward in held) - Unit(backward in held)
  }

  /** The movement of one tick: on each axis, the key that moves forward along
      it minus the key that moves backward along it. */
  function Displacement(cam: MainCamera, held: set<KeyCode>): (d: Translation)
    ensures -1 <= d.x <= 1 && -1 <= d.y <= 1 && -1 <= d.z <= 1
    ensures d.x == 0 <==> (cam.a in held <==> cam.d in held)
    ensures d.y == 0 <==> (cam.w in held <==> cam.s in held)
    ensures d.z == 0 <==> (cam.z in held <==> cam.x in held)
    ensures (forall k :: k in held ==> !IsBound(cam, k)) ==> d == Origin
  {
    Translation(AxisMove(cam.d, cam.a, held), AxisMove(cam.w, cam.s, held), AxisMove(cam.x, cam.z, held))
  }

  /** What key k alone contributes to one axis. */
  function AxisEffect(forward: KeyCode, backward: KeyCode, k: KeyCode): int {
    Unit(forward == k) - Unit(backward == k)
  }

  /** What holding key k alone contributes to a tick. With six distinct keys,
      the key in field z lowers z, the key in x raises z, the key in w raises y,
      the key in s lowers y, the key in a lowers x and the key in d raises x. */
  function KeyEffect(cam: MainCamera, k: KeyCode): (e: Translation)
    ensures DistinctBindings(cam) && IsBound(cam, k) ==>
      (if e.x != 0 then 1 else 0) + (if e.y != 0 then 1 else 0) + (if e.z != 0 then 1 else 0) == 1
    ensures DistinctBindings(cam) && k == cam.z ==> e == Translation(0, 0, -1)
    ensures DistinctBindings(cam) && k == cam.x ==> e == Translation(0, 0, 1)
    ensures DistinctBindings(cam) && k == cam.w ==> e == Translation(0, 1, 0)
    ensures DistinctBindings(cam) && k == cam.s ==> e == Translation(0, -1, 0)
    ensures DistinctBindings(cam) && k == cam.a ==> e == Translation(-1, 0, 0)
    ensures DistinctBindings(cam) && k == cam.d ==> e == Translation(1, 0, 0)
    ensures !IsBound(cam, k) ==> e == Origin
  {
    Translation(AxisEffect(cam.d, cam.a, k), AxisEffect(cam.w, cam.s, k), AxisEffect(cam.x, cam.z, k))
  }

  /** On one axis, holding one more key adds that key's contribution. */
  lemma AxisAdd(forward: KeyCode, backward: KeyCode, held: set<KeyCode>, k: KeyCode)
    requires k !in held
    ensures AxisMove(forward, backward, held + {k}) == AxisMove(forward, backward, held) + AxisEffect(forward, backward, k)
  {
    assert forward in held + {k} <==> forward in held || forward == k;
    assert backward in held + {k} <==> backward in held || backward == k;
  }

  /** Holding one more key adds exactly that key's effect: effects add up. */
  lemma HeldKeysAdd(cam: MainCamera, held: set<KeyCode>, k: KeyCode)
    requires k !in held
    ensures Displacement(cam, held + {k}) == Add(Displacement(cam, held), KeyEffect(cam, k))
  {
    AxisAdd(cam.d, cam.a, held, k);
    AxisAdd(cam.w, cam.s, held, k);
    AxisAdd(cam.x, cam.z, held, k);
  }

  /** Under the default bindings: Z moves z down, X moves z up, W moves y up,
      S moves y down, A moves x down, D moves x up. */
  lemma DefaultKeyEffects()
    ensures KeyEffect(DefaultBindings(), Z) == Translation(0, 0, -1)
    ensures KeyEffect(DefaultBindings(), X) == Translation(0, 0, 1)
    ensures KeyEffect(DefaultBindings(), W) == Translation(0, 1, 0)
    ensures KeyEffect(DefaultBindings(), S) == Translation(0, -1, 0)
    ensures KeyEffect(DefaultBindings(), A) == Translation(-1, 0, 0)
    ensures KeyEffect(DefaultBindings(), D) == Translation(1, 0, 0)
  {
  }

  /** The translation after n ticks with the same keys held. */
  function AfterTicks(t: Translation, cam: MainCamera, held: set<KeyCode>, n: nat): Translation
  {
    if n == 0 then t else Add(AfterTicks(t, cam, held, n - 1), Displacement(cam, held))
  }

  /** Over n ticks the camera moves n times the one-tick displacement. */
  lemma {:induction false} AfterTicksIsLinear(t: Translation, cam: MainCamera, held: set<KeyCode>, n: nat)
    ensures AfterTicks(t, cam, held, n) == Add(t, Scale(n, Displacement(cam, held)))
  {
    if n > 0 {
      AfterTicksIsLinear(t, cam, held, n - 1);
      var d := Displacement(cam, held);
      assert (n - 1) * d.x + d.x == n * d.x;
      assert (n - 1) * d.y + d.y == n * d.y;
      assert (n - 1) * d.z + d.z == n * d.z;
    }
  }

  /** Under the default bindings, holding W for n ticks moves the camera n
      steps up; holding W and Z moves it n steps up and n steps along
      negative z. */
  lemma HoldingKeysUnderDefaults(t: Translation, held: set<KeyCode>, n: nat)
    requires held == {W} || held == {W, Z}
    ensures held == {W} ==> AfterTicks(t, DefaultBindings(), held, n) == Add(t, Translation(0, n, 0))
    ensures held == {W, Z} ==> AfterTicks(t, DefaultBindings(), held, n) == Add(t, Translation(0, n, -(n as int)))
  {
    var d := Displacement(DefaultBindings(), held);
    assert d == if held == {W} then Translation(0, 1, 0) else Translation(0, 1, -1);
    AfterTicksIsLinear(t, DefaultBindings(), held, n);
  }

  /** The camera entity: its `MainCamera` component, which `update` only reads,
      and the translation of its `Transform`, which `update` changes. */
  class Camera {
    const bindings: MainCamera
    var translation: Translation

    constructor (bindings: MainCamera, start: Translation)
      ensures this.bindings == bindings && translation == start
    {
      this.bindings := bindings;
      translation := start;
    }

    /** One run of `update`: the six key tests in the source's order. */
    method Tick(held: set<KeyCode>)
      modifies this
      ensures translation == Add(old(translation), Displacement(bindings, held))
    {
      if bindings.z in held {
        translation := translation.(z := translation.z - 1);
      }
      if bindings.x in held {
        translation := translation.(z := translation.z + 1);
      }
      if bindings.w in held {
        translation := translation.(y := translation.y + 1);
      }
      if bindings.a in held {
        translation := translation.(x := translation.x - 1);
      }
      if bindings.s in held {
        translation := translation.(y := translation.y - 1);
      }
      if bindings.d in held {
        translation := translation.(x := translation.x + 1);
      }
    }
  }
}
