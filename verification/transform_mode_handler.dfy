/** The manipulation-mode selector: a four-valued mode updated from the key-up
    edges of the T, R, S and O keys in one frame. */
module TransformModeHandler {

  datatype TransformMode = Off | Translate | Rotate | Scale

  /** Which of the four mode keys was released this frame. */
  datatype KeyEdges = KeyEdges(t: bool, r: bool, s: bool, o: bool)

  /** The behaviour's two fields; `axisLock` is declared but nothing writes it. */
  datatype Handler = Handler(mode: TransformMode, axisLock: bool)

  /** The field initialisers: mode Off, axis lock off. */
  const Initial: Handler := Handler(Off, false)

  /** One frame. Two independent if/else-if chains run in order, T-or-R and
      then S-or-O, so the second chain overrides the first and, within each
      chain, the earlier key wins. */
  function Update(h: Handler, keys: KeyEdges): (r: Handler)
    ensures r.axisLock == h.axisLock
    ensures keys.s ==> r.mode == Scale
    ensures !keys.s && keys.o ==> r.mode == Off
    ensures !keys.s && !keys.o && keys.t ==> r.mode == Translate
    ensures !keys.s && !keys.o && !keys.t && keys.r ==> r.mode == Rotate
    ensures !keys.t && !keys.r && !keys.s && !keys.o ==> r.mode == h.mode
  {
    var afterTR := if keys.t then Translate else if keys.r then Rotate else h.mode;
    var afterSO := if keys.s then Scale else if keys.o then Off else afterTR;
    h.(mode := afterSO)
  }

  /** A key paired with the mode its release selects. */
  datatype Binding = Binding(pressed: bool, mode: TransformMode)

  /** Reference reading of the selector as a priority list: the first released
      key in `bindings` decides the mode; with none released the mode stays. */
  function FirstReleased(bindings: seq<Binding>, current: TransformMode): (m: TransformMode)
    ensures m == current || exists i :: 0 <= i < |bindings| && bindings[i].pressed && bindings[i].mode == m
    ensures (forall i :: 0 <= i < |bindings| ==> !bindings[i].pressed) ==> m == current
    ensures forall i :: (0 <= i < |bindings| && bindings[i].pressed &&
                         (forall j :: 0 <= j < i ==> !bindings[j].pressed)) ==> m == bindings[i].mode
  {
    if |bindings| == 0 then current
    else if bindings[0].pressed then bindings[0].mode
    else FirstReleased(bindings[1..], current)
  }

  /** The precedence the selector actually implements: S, then O, then T, then R. */
  function Precedence(keys: KeyEdges): seq<Binding> {
    [Binding(keys.s, Scale), Binding(keys.o, Off), Binding(keys.t, Translate), Binding(keys.r, Rotate)]
  }

  /** The two-chain update agrees with the priority list S > O > T > R. */
  lemma UpdateIsPriorityList(h: Handler, keys: KeyEdges)
    ensures Update(h, keys).mode == FirstReleased(Precedence(keys), h.mode)
  {
    var p := Precedence(keys);
    assert p[1..][1..][1..][1..] == [];
    assert FirstReleased(p[1..][1..][1..], h.mode) == (if keys.r then Rotate else h.mode);
    assert FirstReleased(p[1..][1..], h.mode) == (if keys.t then Translate else if keys.r then Rotate else h.mode);
  }

  /** The initial mode is Off. */
  lemma InitialIsOff()
    ensures Initial.mode == Off && !Initial.axisLock
  {
  }

  /** Replaying the same key edges changes nothing more: the result depends on
      the previous mode only when no key was released. */
  lemma UpdateIdempotent(h: Handler, keys: KeyEdges)
    ensures Update(Update(h, keys), keys) == Update(h, keys)
  {
  }
}
