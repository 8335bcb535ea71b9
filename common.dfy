/** Small shared vocabulary: an Option type, prefix tests on strings and the
    edge detector that both device managers use for lid and power-source flags. */
module Common {

  datatype Option<+T> = None | Some(value: T)

  /** QString::startsWith: an empty prefix matches every string. */
  predicate StartsWith(s: string, prefix: string)
  {
    |prefix| <= |s| && s[..|prefix|] == prefix
  }

  /** Direction of a change of a tracked boolean. */
  datatype Edge = Rise | Fall

  /** The transition signal owed when a tracked flag was `was` and now reads `now`:
      a rising edge when it turns on, a falling edge when it turns off, none otherwise. */
  function EdgeOf(was: bool, now: bool): (e: Option<Edge>)
    ensures e == Some(Rise) <==> !was && now
    ensures e == Some(Fall) <==> was && !now
    ensures e == None <==> was == now
  {
    if was != now then (if now then Some(Rise) else Some(Fall)) else None
  }

  /** The edges a tracker emits when it starts at `was` and observes `readings` one by one,
      storing each reading as its new flag. */
  function EdgeTrace(was: bool, readings: seq<bool>): seq<Edge>
    decreases |readings|
  {
    if readings == [] then []
    else
      var head := match EdgeOf(was, readings[0]) case Some(e) => [e] case None => [];
      head + EdgeTrace(readings[0], readings[1..])
  }

  /** The edge that leaves a tracker in state `on`. */
  function Into(on: bool): Edge
  {
    if on then Rise else Fall
  }

  /** Edges of a trace alternate, the first one leaves the initial state and,
      when there is any edge, the last one enters the final reading. */
  lemma {:induction false} EdgeTraceAlternates(was: bool, readings: seq<bool>)
    ensures var t := EdgeTrace(was, readings);
      && (forall i :: 0 <= i < |t| - 1 ==> t[i] != t[i + 1])
      && (|t| > 0 ==> t[0] == Into(!was))
      && (|t| > 0 && |readings| > 0 ==> t[|t| - 1] == Into(readings[|readings| - 1]))
      && (|readings| > 0 && readings[|readings| - 1] != was ==> |t| > 0)
    decreases |readings|
  {
    if readings != [] {
      var now := readings[0];
      var rest := readings[1..];
      EdgeTraceAlternates(now, rest);
      var tail := EdgeTrace(now, rest);
      if rest != [] {
        assert readings[|readings| - 1] == rest[|rest| - 1];
      }
      if was != now {
        var t := [Into(now)] + tail;
        assert EdgeTrace(was, readings) == t;
        assert |tail| > 0 ==> tail[0] == Into(!now);
      } else {
        assert EdgeTrace(was, readings) == tail;
      }
    }
  }

  /** A tracker that observes the same reading twice emits nothing on the second observation. */
  lemma {:induction false} RepeatedReadingIsSilent(was: bool, now: bool)
    ensures EdgeTrace(was, [now, now]) == EdgeTrace(was, [now])
  {
    assert [now, now][1..] == [now];
    assert [now][1..] == [];
    assert EdgeTrace(now, [now]) == [];
  }
}
