/**
 * A run of discrete activations of the action bar. Between two clicks the card may be
 * re-rendered with fresh props, so every click carries the viewer and props it was made on.
 * The component keeps nothing from one click to the next.
 */
module ActivationSession {
  import opened JsValues
  import opened Permissions
  import opened HoverCard

  datatype Click = Click(viewer: Viewer, props: Props, target: Affordance)

  /** The caller kept its side of the handler contract for every click. */
  predicate Honoured(s: seq<Click>) {
    forall i :: 0 <= i < |s| ==> HandlersWired(s[i].props, s[i].target)
  }

  /** The effects of the clicks, one activation after the other. */
  function Run(s: seq<Click>): seq<Effect>
    requires Honoured(s)
  {
    if s == [] then []
    else Activate(s[0].viewer, s[0].props, s[0].target) + Run(s[1..])
  }

  /** The callbacks the clicks are wired to, in click order, one per live click. */
  function WiredHandlers(s: seq<Click>): seq<Callback>
    requires Honoured(s)
  {
    if s == [] then []
    else
      var h := Wired(s[0].viewer, s[0].props, s[0].target);
      (if h.Some? then [h.value] else []) + WiredHandlers(s[1..])
  }

  /** The number of clicks that reached a rendered, enabled control. */
  function LiveClicks(s: seq<Click>): (n: nat)
    ensures (forall i :: 0 <= i < |s| ==> s[i].target == Like) ==> n == |s|
  {
    if s == [] then 0
    else (if Live(Render(s[0].viewer, s[0].props), s[0].target) then 1 else 0) + LiveClicks(s[1..])
  }

  /** Runs compose: the effects of two runs in a row are the two runs' effects in a row. */
  lemma {:induction false} RunAppend(s1: seq<Click>, s2: seq<Click>)
    requires Honoured(s1) && Honoured(s2)
    ensures Honoured(s1 + s2)
    ensures Run(s1 + s2) == Run(s1) + Run(s2)
  {
    if s1 != [] {
      assert (s1 + s2)[1..] == s1[1..] + s2;
      RunAppend(s1[1..], s2);
    } else {
      assert s1 + s2 == s2;
    }
  }

  /**
   * Every live click calls exactly its wired callback, once and in click order; dead clicks
   * call nothing.
   */
  lemma {:induction false} RunCallsWiredHandlers(s: seq<Click>)
    requires Honoured(s)
    ensures Calls(Run(s)) == WiredHandlers(s)
    ensures |WiredHandlers(s)| == LiveClicks(s)
  {
    if s != [] {
      var t := Activate(s[0].viewer, s[0].props, s[0].target);
      RunCallsWiredHandlers(s[1..]);
      CallsAppend(t, Run(s[1..]));
    }
  }

  /** Every cancelled default action is followed at once by a callback. */
  lemma {:induction false} PreventDefaultThenCall(s: seq<Click>)
    requires Honoured(s)
    ensures forall i :: 0 <= i < |Run(s)| && Run(s)[i] == PreventDefault ==>
              i + 1 < |Run(s)| && Run(s)[i + 1].Call?
  {
    if s != [] {
      var t := Activate(s[0].viewer, s[0].props, s[0].target);
      PreventDefaultThenCall(s[1..]);
      var r := Run(s);
      assert r == t + Run(s[1..]);
      forall i | 0 <= i < |r| && r[i] == PreventDefault
        ensures i + 1 < |r| && r[i + 1].Call?
      {
        if i >= |t| {
          assert Run(s[1..])[i - |t|] == PreventDefault;
        }
      }
    }
  }

  /**
   * `n` clicks on like in a row call `onLike` `n` times: the component does not suppress
   * repeated activations.
   */
  lemma {:induction false} RepeatedLikes(v: Viewer, p: Props, n: nat)
    ensures Honoured(seq(n, _ => Click(v, p, Like)))
    ensures Calls(Run(seq(n, _ => Click(v, p, Like)))) == seq(n, _ => p.onLike)
  {
    var s := seq(n, _ => Click(v, p, Like));
    if n > 0 {
      RepeatedLikes(v, p, n - 1);
      assert s[1..] == seq(n - 1, _ => Click(v, p, Like));
      CallsAppend([PreventDefault, Call(p.onLike)], Run(s[1..]));
      assert seq(n, _ => p.onLike) == [p.onLike] + seq(n - 1, _ => p.onLike);
    }
  }
}
