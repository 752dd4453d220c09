/** The observable life of a jQuery Deferred, as a trace of the events its
    subscribers see: progress notifications, then at most one settlement. */
module Deferred {

  /** The arguments handed to `progress` and `fail` callbacks. */
  type Args = seq<string>

  datatype Event<V> =
    | Notify(progress: Args)
    | Resolve(value: V)
    | Reject(reason: Args)

  /** How one backend success is turned into the adapter's own settlement. */
  datatype Settlement<W> = Resolved(value: W) | Rejected(reason: Args)

  function AsEvent<W>(s: Settlement<W>): (e: Event<W>)
    ensures !e.Notify?
  {
    match s
    case Resolved(w) => Resolve(w)
    case Rejected(a) => Reject(a)
  }

  /** What the Deferred contract allows: any number of notifications, then at
      most one settlement, which comes last. */
  predicate WellFormed<V>(t: seq<Event<V>>) {
    forall i :: 0 <= i < |t| - 1 ==> t[i].Notify?
  }

  /** The payloads of the progress notifications, in order. */
  function Progresses<V>(t: seq<Event<V>>): seq<Args> {
    if t == [] then []
    else (if t[0].Notify? then [t[0].progress] else []) + Progresses(t[1..])
  }

  /** The number of settlements (done or fail) in a trace. */
  function Settlements<V>(t: seq<Event<V>>): nat {
    if t == [] then 0
    else (if t[0].Notify? then 0 else 1) + Settlements(t[1..])
  }

  /** The trace a wrapping Deferred shows its subscribers when it subscribes to
      an inner one: progress and failure are passed through with the same
      payloads, and each success is handed to `settle`. */
  function Forward<V, W>(t: seq<Event<V>>, settle: V -> Settlement<W>): (r: seq<Event<W>>)
    ensures |r| == |t|
    ensures forall i :: 0 <= i < |t| ==> (r[i].Notify? <==> t[i].Notify?)
    ensures forall i :: 0 <= i < |t| && t[i].Notify? ==> r[i] == Notify(t[i].progress)
    ensures forall i :: 0 <= i < |t| && t[i].Reject? ==> r[i] == Reject(t[i].reason)
    ensures forall i :: 0 <= i < |t| && t[i].Resolve? ==> r[i] == AsEvent(settle(t[i].value))
    ensures WellFormed(r) <==> WellFormed(t)
  {
    if t == [] then []
    else
      var head := match t[0]
        case Notify(p) => Notify(p)
        case Reject(a) => Reject(a)
        case Resolve(v) => AsEvent(settle(v));
      [head] + Forward(t[1..], settle)
  }

  /** Progress notifications reach the wrapper's subscribers one for one, in order. */
  lemma {:induction false} ForwardRelaysProgress<V, W>(t: seq<Event<V>>, settle: V -> Settlement<W>)
    ensures Progresses(Forward(t, settle)) == Progresses(t)
  {
    if t != [] {
      var r := Forward(t, settle);
      assert r[1..] == Forward(t[1..], settle);
      ForwardRelaysProgress(t[1..], settle);
    }
  }

  /** The wrapper settles exactly as often as the inner Deferred: never both
      done and fail, never neither once the inner one has settled. */
  lemma {:induction false} ForwardKeepsSettlements<V, W>(t: seq<Event<V>>, settle: V -> Settlement<W>)
    ensures Settlements(Forward(t, settle)) == Settlements(t)
  {
    if t != [] {
      var r := Forward(t, settle);
      assert r[1..] == Forward(t[1..], settle);
      ForwardKeepsSettlements(t[1..], settle);
    }
  }

  /** Wrapping with a settlement that resolves with the value it is given
      changes nothing the subscribers can see. */
  lemma {:induction false} ForwardPassThrough<V>(t: seq<Event<V>>)
    ensures Forward(t, v => Resolved(v)) == t
  {
    if t != [] {
      ForwardPassThrough(t[1..]);
    }
  }
}
