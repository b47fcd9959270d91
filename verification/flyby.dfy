/**
 * The Flyby result view: an object holding the decoded payload in `content`, three
 * accessors over it, and the derived queries `ids` and `to_json`, which flatten the
 * stored matches in place before filtering them.
 */
module FlybyView {
  import opened Json
  import opened Errors
  import opened Flatten
  import opened Frame

  /** `content.get(key, None)` when `content` is truthy, else `None`. */
  function Lookup(content: Value, key: string): Result<Value> {
    if !Truthy(content) then Ok(Null)
    else if !content.Obj? then Err(AttributeError)
    else if key in content.fields then Ok(content.fields[key])
    else Ok(Null)
  }

  /** What `_flatten` returns when the view holds `content`. */
  function FlattenContent(content: Value): Result<seq<Record>> {
    match Lookup(content, "matches")
    case Err(e) => Err(e)
    case Ok(v) =>
      match MatchList(v)
      case Err(e) => Err(e)
      case Ok(ms) => Flattened(ms)
  }

  /** The payload `fields` with its match list replaced by `ms`. */
  function WithMatches(fields: map<string, Value>, ms: seq<Value>): Value {
    Obj(fields["matches" := Arr(ms)])
  }

  /** The content after `_flatten` ran: only a stored match list is rewritten. */
  function ContentAfterFlatten(content: Value): Value {
    if content.Obj? && "matches" in content.fields && content.fields["matches"].Arr? then
      WithMatches(content.fields, Rewritten(content.fields["matches"].items))
    else content
  }

  /** The list `_flatten` walks is the one stored in the payload, and only a non-empty one gets rewritten. */
  lemma WalkedList(content: Value, ms: seq<Value>)
    requires Lookup(content, "matches").Ok? && MatchList(Lookup(content, "matches").value) == Ok(ms)
    ensures FlattenContent(content) == Flattened(ms)
    ensures ms == [] ==> ContentAfterFlatten(content) == content
    ensures ms != [] ==>
      && content.Obj?
      && content == WithMatches(content.fields, ms)
      && ContentAfterFlatten(content) == WithMatches(content.fields, Rewritten(ms))
  {
    if ms == [] && content.Obj? && "matches" in content.fields && content.fields["matches"].Arr? {
      assert content.fields["matches" := Arr([])] == content.fields;
    }
    if ms != [] {
      assert content.fields["matches" := Arr(ms)] == content.fields;
    }
  }

  /** One pass of the loop: the stored list gets match `i` rewritten, one more record is collected. */
  lemma StoreStep(fields: map<string, Value>, ms: seq<Value>, i: nat, content: Value)
    requires i < |ms| && Flattened(ms[..i]).Ok? && MergeMatch(ms[i]).Ok?
    requires content == WithMatches(fields, Rewritten(ms[..i]) + ms[i..])
    ensures Flattened(ms[..i + 1]) == Ok(Flattened(ms[..i]).value + [MergeMatch(ms[i]).value])
    ensures Obj(content.fields["matches" := Arr(content.fields["matches"].items[i := RewriteMatch(ms[i])])])
      == WithMatches(fields, Rewritten(ms[..i + 1]) + ms[i + 1..])
  {
    FlattenStep(ms, i);
    var stored := Rewritten(ms[..i]) + ms[i..];
    assert content.fields["matches"].items == stored;
    assert content.fields["matches" := Arr(stored[i := RewriteMatch(ms[i])])]
        == fields["matches" := Arr(stored[i := RewriteMatch(ms[i])])];
  }

  /** What `ids(**kwargs)` returns when called on a view holding `content`. */
  function IdsOf(content: Value, args: FilterArgs): Result<seq<Value>> {
    match FlattenContent(content)
    case Err(e) => Err(e)
    case Ok(rs) => SelectIds(rs, args)
  }

  /** What `to_json(**kwargs)` without a path returns when called on a view holding `content`. */
  function ToJsonOf(content: Value, args: FilterArgs): Result<seq<Record>> {
    match FlattenContent(content)
    case Err(e) => Err(e)
    case Ok(rs) => SelectRecords(rs, args)
  }

  /** The HTTP response the fetch receives; `body` is what `json.loads(r.text)` decoded. */
  datatype Response = Response(ok: bool, status: int, body: Value)

  class Flyby {
    var content: Value

    /** `Flyby()`: an empty view. */
    constructor ()
      ensures content == Null
    {
      content := Null;
    }

    /** `Flyby(content)`: the payload is stored as given. */
    constructor WithContent(content: Value)
      ensures this.content == content
    {
      this.content := content;
    }

    /**
     * `get(activity_id)`, given the response: a successful one replaces the content and
     * returns the view itself, any other raises.
     */
    method Get(response: Response) returns (r: Result<Flyby>)
      modifies this
      ensures response.ok ==> r == Ok(this) && content == response.body
      ensures !response.ok ==> r == Err(ConnectionError(response.status)) && content == old(content)
    {
      if response.ok {
        content := response.body;
        r := Ok(this);
      } else {
        r := Err(ConnectionError(response.status));
      }
    }

    /** The requesting activity. */
    function Activity(): (r: Result<Value>)
      reads this
      ensures !Truthy(content) ==> r == Ok(Null)
      ensures content.Obj? && content.fields != map[] ==>
        r == Ok(if "activity" in content.fields then content.fields["activity"] else Null)
      ensures r.Err? <==> Truthy(content) && !content.Obj?
    {
      Lookup(content, "activity")
    }

    /** The raw match list, as stored. */
    function Matches(): (r: Result<Value>)
      reads this
      ensures !Truthy(content) ==> r == Ok(Null)
      ensures content.Obj? && content.fields != map[] ==>
        r == Ok(if "matches" in content.fields then content.fields["matches"] else Null)
      ensures r.Err? <==> Truthy(content) && !content.Obj?
    {
      Lookup(content, "matches")
    }

    /** The athletes payload. */
    function Athletes(): (r: Result<Value>)
      reads this
      ensures !Truthy(content) ==> r == Ok(Null)
      ensures content.Obj? && content.fields != map[] ==>
        r == Ok(if "athletes" in content.fields then content.fields["athletes"] else Null)
      ensures r.Err? <==> Truthy(content) && !content.Obj?
    {
      Lookup(content, "athletes")
    }

    /**
     * `_flatten()`: walk the matches in order, overlay each `correlation` onto its
     * `otherActivity` in place and collect the merged dicts.
     */
    method FlattenMatches() returns (r: Result<seq<Record>>)
      modifies this
      ensures r == FlattenContent(old(content))
      ensures content == ContentAfterFlatten(old(content))
    {
      var matches := Matches();
      if matches.Err? {
        return Err(matches.error);
      }
      var items := MatchList(matches.value);
      if items.Err? {
        assert !matches.value.Arr?;
        return Err(items.error);
      }
      var ms := items.value;
      WalkedList(content, ms);
      if ms == [] {
        // an empty list, dict or string: the loop body never runs
        return Ok([]);
      }
      ghost var fields := content.fields;
      assert Rewritten(ms[..0]) + ms[0..] == ms;
      var rv: seq<Record> := [];
      var i := 0;
      while i < |ms|
        invariant 0 <= i <= |ms|
        invariant content == WithMatches(fields, Rewritten(ms[..i]) + ms[i..])
        invariant Flattened(ms[..i]) == Ok(rv)
      {
        var step := MergeMatch(ms[i]);
        if step.Err? {
          FlattenStopsAt(ms, i);
          RewriteStopsAt(ms, i);
          return Err(step.error);
        }
        StoreStep(fields, ms, i, content);
        rv := rv + [step.value];
        // `_a.update(_c)` rewrites match `i` inside the stored list
        var stored := content.fields["matches"].items;
        content := Obj(content.fields["matches" := Arr(stored[i := RewriteMatch(ms[i])])]);
        i := i + 1;
      }
      assert ms[..i] == ms && ms[i..] == [];
      assert Rewritten(ms[..i]) + ms[i..] == Rewritten(ms);
      r := Ok(rv);
    }

    /** `ids(distance=..., tol=...)`: flatten, then the `id` column of the selected rows. */
    method Ids(args: FilterArgs) returns (r: Result<seq<Value>>)
      modifies this
      ensures r == IdsOf(old(content), args)
      ensures content == ContentAfterFlatten(old(content))
    {
      var flat := FlattenMatches();
      if flat.Err? {
        return Err(flat.error);
      }
      r := SelectIds(flat.value, args);
    }

    /** `to_json(distance=..., tol=...)` without a path: flatten, then the selected rows as records. */
    method ToJson(args: FilterArgs) returns (r: Result<seq<Record>>)
      modifies this
      ensures r == ToJsonOf(old(content), args)
      ensures content == ContentAfterFlatten(old(content))
    {
      var flat := FlattenMatches();
      if flat.Err? {
        return Err(flat.error);
      }
      r := SelectRecords(flat.value, args);
    }
  }

  /** The `flyby(activity_id)` factory, given the response: a view over the decoded body, or ConnectionError. */
  method Fetch(response: Response) returns (r: Result<Flyby>)
    ensures response.ok ==> r.Ok? && fresh(r.value) && r.value.content == response.body
    ensures !response.ok ==> r == Err(ConnectionError(response.status))
  {
    if response.ok {
      var fb := new Flyby.WithContent(response.body);
      r := Ok(fb);
    } else {
      r := Err(ConnectionError(response.status));
    }
  }

  /**
   * A view without a payload (`Flyby()`, or falsy content): every accessor gives `None`, and
   * `_flatten`, hence `ids` and `to_json`, raise TypeError from iterating `None`.
   */
  lemma EmptyView(fb: Flyby, args: FilterArgs)
    requires !Truthy(fb.content)
    ensures fb.Activity() == Ok(Null) && fb.Matches() == Ok(Null) && fb.Athletes() == Ok(Null)
    ensures FlattenContent(fb.content) == Err(TypeError)
    ensures IdsOf(fb.content, args) == Err(TypeError) && ToJsonOf(fb.content, args) == Err(TypeError)
  {
  }

  /** A view over a payload with the three keys hands back exactly the stored values. */
  lemma ViewOfPayload(fb: Flyby, d: map<string, Value>)
    requires fb.content == Obj(d) && "activity" in d && "matches" in d && "athletes" in d
    ensures fb.Activity() == Ok(d["activity"])
    ensures fb.Matches() == Ok(d["matches"])
    ensures fb.Athletes() == Ok(d["athletes"])
  {
  }

  /**
   * `_flatten` returns one record per stored match, in match order, each the match's
   * `otherActivity` overlaid by its `correlation`; afterwards the stored match holds that record.
   */
  lemma FlattenOneRecordPerMatch(content: Value, ms: seq<Value>)
    requires Lookup(content, "matches") == Ok(Arr(ms)) && FlattenContent(content).Ok?
    ensures |FlattenContent(content).value| == |ms|
    ensures forall i :: 0 <= i < |ms| ==>
      && WellFormedMatch(ms[i])
      && FlattenContent(content).value[i] == Overlay(OtherActivity(ms[i]), Correlation(ms[i]))
      && Rewritten(ms)[i] == Obj(ms[i].fields["otherActivity" := Obj(FlattenContent(content).value[i])])
    ensures Lookup(ContentAfterFlatten(content), "matches") == Ok(Arr(Rewritten(ms)))
  {
    var rs := FlattenContent(content).value;
    assert Flattened(ms) == Ok(rs);
    FlattenedOk(ms);
    StoredMatchesHoldRecords(ms);
    forall i | 0 <= i < |ms|
      ensures WellFormedMatch(ms[i]) && rs[i] == Overlay(OtherActivity(ms[i]), Correlation(ms[i]))
    {
      assert MergeMatch(ms[i]) == Ok(rs[i]);
    }
  }

  /** Flattening a second time returns the same result and leaves the content as the first call left it. */
  lemma FlattenTwice(content: Value)
    ensures FlattenContent(ContentAfterFlatten(content)) == FlattenContent(content)
    ensures ContentAfterFlatten(ContentAfterFlatten(content)) == ContentAfterFlatten(content)
  {
    if content.Obj? && "matches" in content.fields && content.fields["matches"].Arr? {
      var ms := content.fields["matches"].items;
      var after := ContentAfterFlatten(content);
      assert Lookup(content, "matches") == Ok(Arr(ms));
      WalkedList(content, ms);
      FlattenIdempotent(ms);
      var r := Rewritten(ms);
      assert Lookup(after, "matches") == Ok(Arr(r));
      WalkedList(after, r);
    }
  }

  /** Flattening touches only the stored match list: `activity`, `athletes` and every other key read the same. */
  lemma FlattenTouchesOnlyMatches(content: Value, key: string)
    requires key != "matches"
    ensures Lookup(ContentAfterFlatten(content), key) == Lookup(content, key)
  {
  }

  /**
   * Calling `ids` and then `to_json` with the same arguments on one view: the id list is the
   * `id` column of the returned records, although `ids` rewrote the stored matches in between.
   */
  lemma IdsThenToJson(content: Value, args: FilterArgs)
    ensures IdsOf(content, args).Ok? ==>
      ToJsonOf(ContentAfterFlatten(content), args).Ok? &&
      IdsOf(content, args).value == Column(ToJsonOf(ContentAfterFlatten(content), args).value, "id")
  {
    FlattenTwice(content);
    if FlattenContent(content).Ok? {
      IdsAgreeWithRecords(FlattenContent(content).value, args);
    }
  }
}
