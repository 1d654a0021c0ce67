/** Database calls that are tried up to three times, and what they may leave behind. */
module Retries {
  import opened Models

  /** What one attempt meets: applied and reported, applied but reported as failed, or failed. */
  datatype Reply = Ack | LostAck | Failure

  datatype Attempt = Attempt(at: Time, reply: Reply)

  const MAX_ATTEMPTS := 3

  /** What the attempts of one call will meet, in order. A list shorter than three ends where the
      call's context is done: no attempt follows it. */
  predicate IsScript(script: seq<Attempt>) { 1 <= |script| <= MAX_ATTEMPTS }

  // --- Updates: an applied attempt takes effect each time ----------------------------------------

  /** When the update took effect. */
  function AppliedAt(script: seq<Attempt>): (ts: seq<Time>)
    ensures |ts| <= |script|
  {
    if script == [] then []
    else match script[0].reply
         case Ack => [script[0].at]
         case LostAck => [script[0].at] + AppliedAt(script[1..])
         case Failure => AppliedAt(script[1..])
  }

  /** Whether the call reports success. */
  predicate Acked(script: seq<Attempt>) {
    script != [] && (script[0].reply == Ack || Acked(script[1..]))
  }

  /** A reported success took effect one to three times; a reported failure up to three times. */
  lemma {:induction false} AtLeastOnce(script: seq<Attempt>)
    requires 1 <= |script| <= 3
    ensures IsScript(script)
    ensures Acked(script) ==> 1 <= |AppliedAt(script)|
    ensures |AppliedAt(script)| <= 3
    ensures (forall i :: 0 <= i < |script| ==> script[i].reply != LostAck) ==>
              |AppliedAt(script)| == if Acked(script) then 1 else 0
  {
    if |script| == 1 {
      assert !Acked(script[1..]) && AppliedAt(script[1..]) == [];
    } else if script[0].reply != Ack {
      AtLeastOnce(script[1..]);
      assert forall i :: 0 <= i < |script[1..]| ==> script[1..][i] == script[i + 1];
    }
  }

  /** The call gets to attempt `i`: none before was acknowledged. */
  predicate Reached(script: seq<Attempt>, i: nat) {
    i < |script| && forall j :: 0 <= j < i ==> script[j].reply != Ack
  }

  /** The update takes effect at the attempts that are reached and do not fail, and at no others. */
  lemma {:induction false} AppliedWhen(script: seq<Attempt>, t: Time)
    ensures t in AppliedAt(script) <==>
              exists i :: 0 <= i < |script| && Reached(script, i) && script[i].reply != Failure && script[i].at == t
  {
    if script != [] {
      var rest := script[1..];
      AppliedWhen(rest, t);
      ReachedTail(script);
      if i :| 0 <= i < |script| && Reached(script, i) && script[i].reply != Failure && script[i].at == t {
        if i > 0 { assert Reached(rest, i - 1) && rest[i - 1] == script[i]; }
      }
      if i :| 0 <= i < |rest| && Reached(rest, i) && rest[i].reply != Failure && rest[i].at == t {
        if script[0].reply != Ack { assert Reached(script, i + 1) && script[i + 1] == rest[i]; }
      }
      if script[0].reply != Failure && script[0].at == t { assert Reached(script, 0); }
    }
  }

  lemma ReachedTail(script: seq<Attempt>)
    requires script != []
    ensures forall i :: 0 <= i < |script| - 1 ==>
              (Reached(script, i + 1) <==> script[0].reply != Ack && Reached(script[1..], i))
  {
    forall i | 0 <= i < |script| - 1
      ensures Reached(script, i + 1) <==> script[0].reply != Ack && Reached(script[1..], i)
    {
      if Reached(script, i + 1) { assert forall j :: 0 <= j < i ==> script[1..][j] == script[j + 1]; }
      if script[0].reply != Ack && Reached(script[1..], i) {
        assert forall j :: 0 < j < i + 1 ==> script[j] == script[1..][j - 1];
      }
    }
  }

  /** A call reports success when some attempt was acknowledged, and not otherwise. */
  lemma {:induction false} AckedIff(script: seq<Attempt>)
    ensures Acked(script) <==> exists i :: 0 <= i < |script| && script[i].reply == Ack
  {
    if script != [] {
      AckedIff(script[1..]);
      if i :| 0 <= i < |script| && script[i].reply == Ack {
        assert i == 0 || script[1..][i - 1].reply == Ack;
      }
      if i :| 0 <= i < |script[1..]| && script[1..][i].reply == Ack { assert script[i + 1].reply == Ack; }
    }
  }

  /** No attempt took effect. */
  predicate AllFailed(script: seq<Attempt>) { forall i :: 0 <= i < |script| ==> script[i].reply == Failure }

  lemma AllFailedTail(script: seq<Attempt>)
    requires script != []
    ensures AllFailed(script) <==> script[0].reply == Failure && AllFailed(script[1..])
  {
    assert forall i :: 0 < i < |script| ==> script[i] == script[1..][i - 1];
    assert forall i :: 0 <= i < |script[1..]| ==> script[1..][i] == script[i + 1];
  }

  lemma {:induction false} NoneAppliedIff(script: seq<Attempt>)
    ensures AppliedAt(script) == [] <==> AllFailed(script)
  {
    if script != [] {
      NoneAppliedIff(script[1..]);
      AllFailedTail(script);
    }
  }

  // --- Inserts: a second row with the same key is refused ----------------------------------------

  datatype Insert = Insert(stored: bool, ok: bool)

  function InsertOutcome(refused: bool, script: seq<Attempt>): Insert {
    if script == [] || refused then Insert(false, false)
    else match script[0].reply
         case Ack => Insert(true, true)
         case LostAck => Insert(true, false) // later attempts meet the row and are refused
         case Failure => InsertOutcome(refused, script[1..])
  }

  /** A reported success stored the row, and only if it was not there; what is stored but not
      reported had its acknowledgement lost. */
  lemma {:induction false} InsertOnce(refused: bool, script: seq<Attempt>)
    ensures var r := InsertOutcome(refused, script);
            && (r.ok ==> r.stored) && (r.stored ==> !refused)
            && (r.stored && !r.ok ==> exists i :: 0 <= i < |script| && script[i].reply == LostAck)
  {
    if script != [] && !refused && script[0].reply == Failure {
      InsertOnce(refused, script[1..]);
      if i :| 0 <= i < |script[1..]| && script[1..][i].reply == LostAck {
        assert script[i + 1].reply == LostAck;
      }
    }
  }

  lemma {:induction false} StoredIff(refused: bool, script: seq<Attempt>)
    ensures InsertOutcome(refused, script).stored <==> !refused && !AllFailed(script)
  {
    if script != [] {
      StoredIff(refused, script[1..]);
      AllFailedTail(script);
    }
  }

  /** An insert reports success when it was not refused and the first attempt that did not fail was
      acknowledged. */
  lemma {:induction false} InsertedIff(refused: bool, script: seq<Attempt>)
    ensures InsertOutcome(refused, script).ok <==> !refused && FirstAnswerAcks(script)
  {
    if script != [] {
      InsertedIff(refused, script[1..]);
      if script[0].reply == Failure { FirstAnswerTail(script); }
      if script[0].reply == Ack { assert AcksAt(script, 0); }
      if i: nat :| AcksAt(script, i) && script[0].reply == LostAck { assert i == 0; }
    }
  }

  /** Attempt `i` is acknowledged and all before it failed. */
  predicate AcksAt(script: seq<Attempt>, i: nat) {
    i < |script| && script[i].reply == Ack && forall j :: 0 <= j < i ==> script[j].reply == Failure
  }

  ghost predicate FirstAnswerAcks(script: seq<Attempt>) { exists i: nat :: AcksAt(script, i) }

  lemma FirstAnswerTail(script: seq<Attempt>)
    requires script != [] && script[0].reply == Failure
    ensures FirstAnswerAcks(script) <==> FirstAnswerAcks(script[1..])
  {
    if i: nat :| AcksAt(script, i) {
      assert forall j :: 0 <= j < i - 1 ==> script[1..][j] == script[j + 1];
      assert AcksAt(script[1..], i - 1);
    }
    if i: nat :| AcksAt(script[1..], i) {
      assert forall j :: 0 < j < i + 1 ==> script[j] == script[1..][j - 1];
      assert AcksAt(script, i + 1);
    }
  }
}
