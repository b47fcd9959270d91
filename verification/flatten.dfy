/**
 * The flattening step of the result view: every match `{otherActivity, correlation}`
 * becomes one flat record, `otherActivity` overlaid by `correlation` (`dict.update`).
 * The update happens on the `otherActivity` dict held inside the content, so the stored
 * matches are rewritten as a side effect; `Rewritten` describes that new state.
 */
module Flatten {
  import opened Json
  import opened Errors

  /** `a.update(c)`: every key of either map is kept and, on a shared key, `c` wins. */
  function Overlay(a: Record, c: Record): (r: Record)
    ensures r.Keys == a.Keys + c.Keys
    ensures forall k :: k in c ==> r[k] == c[k]
    ensures forall k :: k in a && k !in c ==> r[k] == a[k]
  {
    a + c
  }

  /** A match the loop body can process: a dict holding two dicts under the two keys. */
  predicate WellFormedMatch(m: Value) {
    && m.Obj?
    && "otherActivity" in m.fields && m.fields["otherActivity"].Obj?
    && "correlation" in m.fields && m.fields["correlation"].Obj?
  }

  function OtherActivity(m: Value): Record
    requires WellFormedMatch(m)
  {
    m.fields["otherActivity"].fields
  }

  function Correlation(m: Value): Record
    requires WellFormedMatch(m)
  {
    m.fields["correlation"].fields
  }

  /**
   * One pass of the loop body on match `m`: `m['otherActivity']`, `m['correlation']`,
   * then `_a.update(_c)`. Subscripting a non-dict raises TypeError, a missing key
   * KeyError, `.update` on a non-dict AttributeError, and a non-dict argument to
   * `update` TypeError.
   */
  function MergeMatch(m: Value): (r: Result<Record>)
    ensures r.Ok? <==> WellFormedMatch(m)
    ensures r.Ok? ==> r.value == Overlay(OtherActivity(m), Correlation(m))
  {
    if !m.Obj? then Err(TypeError)
    else if "otherActivity" !in m.fields then Err(KeyError("otherActivity"))
    else if "correlation" !in m.fields then Err(KeyError("correlation"))
    else if !m.fields["otherActivity"].Obj? then Err(AttributeError)
    else if !m.fields["correlation"].Obj? then Err(TypeError)
    else Ok(Overlay(m.fields["otherActivity"].fields, m.fields["correlation"].fields))
  }

  /** The stored match after its loop body ran: `otherActivity` now holds the merged dict. */
  function RewriteMatch(m: Value): Value {
    match MergeMatch(m)
    case Ok(rec) => Obj(m.fields["otherActivity" := Obj(rec)])
    case Err(_) => m
  }

  /** Every match before index `i` passes the loop body. */
  predicate PrefixOk(ms: seq<Value>, i: nat)
    requires i <= |ms|
  {
    forall j :: 0 <= j < i ==> MergeMatch(ms[j]).Ok?
  }

  /**
   * What `_flatten` returns for the match list `ms`: the merged records in match order,
   * or the exception raised by the first match the loop body fails on.
   * `FlattenedOk` and `FlattenedErr` state this element by element.
   */
  function Flattened(ms: seq<Value>): (r: Result<seq<Record>>)
    ensures r.Ok? ==> |r.value| == |ms|
    decreases |ms|
  {
    if ms == [] then Ok([])
    else
      match Flattened(ms[..|ms| - 1])
      case Err(e) => Err(e)
      case Ok(rs) =>
        match MergeMatch(ms[|ms| - 1])
        case Err(e) => Err(e)
        case Ok(rec) => Ok(rs + [rec])
  }

  /**
   * The stored match list after `_flatten` ran on `ms`: every match the loop reached
   * and merged is rewritten in place; from the first failing match on, nothing changed.
   * `RewrittenSpec` states this element by element.
   */
  function Rewritten(ms: seq<Value>): (r: seq<Value>)
    ensures |r| == |ms|
    decreases |ms|
  {
    if ms == [] then []
    else
      var p := ms[..|ms| - 1];
      Rewritten(p) + [if Flattened(p).Ok? then RewriteMatch(ms[|ms| - 1]) else ms[|ms| - 1]]
  }

  /** `_flatten` succeeds iff every match merges; then record `i` is match `i` merged. */
  lemma {:induction false} FlattenedOk(ms: seq<Value>)
    ensures Flattened(ms).Ok? <==> PrefixOk(ms, |ms|)
    ensures Flattened(ms).Ok? ==> forall i :: 0 <= i < |ms| ==> MergeMatch(ms[i]) == Ok(Flattened(ms).value[i])
    decreases |ms|
  {
    if ms != [] {
      var n := |ms|;
      var p := ms[..n - 1];
      FlattenedOk(p);
      assert forall j :: 0 <= j < n - 1 ==> p[j] == ms[j];
    }
  }

  /** A failing `_flatten` raises the error of the first match that does not merge. */
  lemma {:induction false} FlattenedErr(ms: seq<Value>, i: nat)
    requires i < |ms| && PrefixOk(ms, i) && MergeMatch(ms[i]).Err?
    ensures Flattened(ms) == Err(MergeMatch(ms[i]).error)
    decreases |ms|
  {
    var n := |ms|;
    var p := ms[..n - 1];
    assert forall j :: 0 <= j < n - 1 ==> p[j] == ms[j];
    if n == i + 1 {
      FlattenedOk(p);
    } else {
      FlattenedErr(p, i);
    }
  }

  /** `for m in matches`: the items the loop visits, or the TypeError the iteration raises. */
  function MatchList(v: Value): (r: Result<seq<Value>>)
    ensures r.Ok? && r.value != [] ==> v == Arr(r.value)
    ensures v.Arr? ==> r == Ok(v.items)
    ensures r.Err? ==> r.error == TypeError
  {
    match v
    case Arr(items) => Ok(items)
    // iterating a dict or a string yields strings, which `m['otherActivity']` cannot subscript
    case Obj(fields) => if fields == map[] then Ok([]) else Err(TypeError)
    case Str(s) => if s == "" then Ok([]) else Err(TypeError)
    case _ => Err(TypeError)
  }

  /** Running the loop body on an already rewritten match changes nothing. */
  lemma MergeMatchIdempotent(m: Value)
    ensures MergeMatch(RewriteMatch(m)) == MergeMatch(m)
    ensures RewriteMatch(RewriteMatch(m)) == RewriteMatch(m)
  {
    if WellFormedMatch(m) {
      var a, c := OtherActivity(m), Correlation(m);
      assert (a + c) + c == a + c;
      var m' := RewriteMatch(m);
      assert m'.fields["correlation"] == m.fields["correlation"];
    }
  }

  /** `_flatten` run a second time returns the same records and leaves the matches as they were. */
  lemma {:induction false} FlattenIdempotent(ms: seq<Value>)
    ensures Flattened(Rewritten(ms)) == Flattened(ms)
    ensures Rewritten(Rewritten(ms)) == Rewritten(ms)
    decreases |ms|
  {
    if ms != [] {
      var n := |ms|;
      var p := ms[..n - 1];
      var r := Rewritten(ms);
      var x := if Flattened(p).Ok? then RewriteMatch(ms[n - 1]) else ms[n - 1];
      assert r == Rewritten(p) + [x];
      assert r[..n - 1] == Rewritten(p);
      FlattenIdempotent(p);
      MergeMatchIdempotent(ms[n - 1]);
      assert Flattened(r[..n - 1]) == Flattened(p);
    }
  }

  /** `PrefixOk` only looks at the first `i` matches. */
  lemma PrefixOkOfPrefix(ms: seq<Value>, k: nat, i: nat)
    requires i <= k <= |ms|
    ensures PrefixOk(ms[..k], i) <==> PrefixOk(ms, i)
  {
    assert forall j :: 0 <= j < i ==> ms[..k][j] == ms[j];
  }

  /** Match `i` is rewritten iff every match before it merged; otherwise it is left as it was. */
  lemma {:induction false} RewrittenSpec(ms: seq<Value>)
    ensures forall i :: 0 <= i < |ms| ==>
      Rewritten(ms)[i] == if PrefixOk(ms, i) then RewriteMatch(ms[i]) else ms[i]
    decreases |ms|
  {
    if ms != [] {
      var n := |ms|;
      var p := ms[..n - 1];
      RewrittenSpec(p);
      FlattenedOk(p);
      var r := Rewritten(ms);
      assert r == Rewritten(p) + [if Flattened(p).Ok? then RewriteMatch(ms[n - 1]) else ms[n - 1]];
      forall i | 0 <= i < n
        ensures r[i] == if PrefixOk(ms, i) then RewriteMatch(ms[i]) else ms[i]
      {
        PrefixOkOfPrefix(ms, n - 1, i);
        if i < n - 1 {
          assert p[i] == ms[i];
        }
      }
    }
  }

  /** One more loop iteration that merges match `i`. */
  lemma FlattenStep(ms: seq<Value>, i: nat)
    requires i < |ms| && Flattened(ms[..i]).Ok? && MergeMatch(ms[i]).Ok?
    ensures Flattened(ms[..i + 1]) == Ok(Flattened(ms[..i]).value + [MergeMatch(ms[i]).value])
    ensures Rewritten(ms[..i + 1]) == Rewritten(ms[..i]) + [RewriteMatch(ms[i])]
    ensures (Rewritten(ms[..i]) + ms[i..])[i := RewriteMatch(ms[i])] == Rewritten(ms[..i + 1]) + ms[i + 1..]
  {
    assert ms[..i + 1][..i] == ms[..i];
    var r := Rewritten(ms[..i]);
    assert |r| == i;
    assert (r + ms[i..])[i := RewriteMatch(ms[i])] == r + [RewriteMatch(ms[i])] + ms[i + 1..];
  }

  /** Helper: `RewrittenSpec` at one index, so that callers do not unfold it for every index. */
  lemma RewrittenAt(ms: seq<Value>, j: nat)
    requires j < |ms|
    ensures Rewritten(ms)[j] == if PrefixOk(ms, j) then RewriteMatch(ms[j]) else ms[j]
  {
    RewrittenSpec(ms);
  }

  /**
   * When the loop body fails on match `i` after succeeding on all before it, `_flatten`
   * raises that error.
   */
  lemma FlattenStopsAt(ms: seq<Value>, i: nat)
    requires i < |ms| && Flattened(ms[..i]).Ok? && MergeMatch(ms[i]).Err?
    ensures PrefixOk(ms, i)
    ensures Flattened(ms) == Err(MergeMatch(ms[i]).error)
  {
    FlattenedOk(ms[..i]);
    PrefixOkOfPrefix(ms, i, i);
    FlattenedErr(ms, i);
  }

  /** ... and the matches from the failing one on are left as they were. */
  lemma RewriteStopsAt(ms: seq<Value>, i: nat)
    requires i < |ms| && Flattened(ms[..i]).Ok? && MergeMatch(ms[i]).Err?
    ensures Rewritten(ms) == Rewritten(ms[..i]) + ms[i..]
  {
    var pre := ms[..i];
    FlattenStopsAt(ms, i);
    var r, r' := Rewritten(ms), Rewritten(pre) + ms[i..];
    forall j | 0 <= j < |ms|
      ensures r[j] == r'[j]
    {
      RewrittenAt(ms, j);
      if j < i {
        RewrittenAt(pre, j);
        PrefixOkOfPrefix(ms, i, j);
        assert pre[j] == ms[j];
        assert PrefixOk(ms, j);
      } else if j > i {
        assert !PrefixOk(ms, j);
      }
    }
    assert r == r';
  }

  /**
   * After a successful `_flatten`, each stored match is the original match whose
   * `otherActivity` now is the very record returned for it.
   */
  lemma StoredMatchesHoldRecords(ms: seq<Value>)
    requires Flattened(ms).Ok?
    ensures forall i :: 0 <= i < |ms| ==>
      ms[i].Obj? && Rewritten(ms)[i] == Obj(ms[i].fields["otherActivity" := Obj(Flattened(ms).value[i])])
  {
    FlattenedOk(ms);
    RewrittenSpec(ms);
    var rs := Flattened(ms).value;
    forall i | 0 <= i < |ms|
      ensures ms[i].Obj? && Rewritten(ms)[i] == Obj(ms[i].fields["otherActivity" := Obj(rs[i])])
    {
      assert PrefixOk(ms, i);
      assert MergeMatch(ms[i]) == Ok(rs[i]);
    }
  }
}
