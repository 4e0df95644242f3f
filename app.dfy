/**
 * The page-flow side of the agent readiness check: the seven-stage progress
 * table kept in session storage and advanced by `pageSuccess`/`pageError`,
 * the body `sendResults` posts, the `each_upto` template helper and the
 * payload and URL `timeUpload` puts.
 */
module App {
  import opened Wrappers
  import opened Json
  import opened CsvSafe

  // ---------------------------------------------------------------------
  // Stages
  // ---------------------------------------------------------------------

  /**
   * One entry of the stage table. `success` is absent until `pageError`
   * sets it; `next` is absent on the last stage.
   */
  datatype Stage = Stage(
    banner: bool,
    current: bool,
    complete: bool,
    errored: bool,
    success: Option<bool>,
    next: Option<StageName>)

  /** The keys of the stage table. */
  datatype StageName = Identity | Location | Network | Computer | Audio | Submit | Done

  type Stages = map<StageName, Stage>

  /** The stages in the order their `next` links chain them. */
  const StageOrder: seq<StageName> := [Identity, Location, Network, Computer, Audio, Submit, Done]

  /** A stage as the default table first holds it. */
  function Fresh(first: bool, next: Option<StageName>): Stage
  {
    Stage(first, first, false, false, None, next)
  }

  /** The table `getStages` stores when session storage holds none. */
  function DefaultStages(): Stages
  {
    DefaultTable
  }

  const DefaultTable: Stages := map[
    Identity := Fresh(true, Some(Location)),
    Location := Fresh(false, Some(Network)),
    Network := Fresh(false, Some(Computer)),
    Computer := Fresh(false, Some(Audio)),
    Audio := Fresh(false, Some(Submit)),
    Submit := Fresh(false, Some(Done)),
    Done := Fresh(false, None)]

  /**
   * The default table holds all seven stages chained by `next` in order,
   * the last without one, and only the first is current and bannered.
   */
  lemma DefaultStagesShape()
    ensures forall k :: k in DefaultStages()
    ensures forall i :: 0 <= i < |StageOrder| - 1 ==> DefaultStages()[StageOrder[i]].next == Some(StageOrder[i + 1])
    ensures DefaultStages()[Done].next == None
    ensures forall k :: k in DefaultStages() ==>
      (DefaultStages()[k].current <==> k == Identity) && (DefaultStages()[k].banner <==> k == Identity)
    ensures forall k :: k in DefaultStages() ==>
      !DefaultStages()[k].complete && !DefaultStages()[k].errored && DefaultStages()[k].success == None
  {
    forall k ensures k in DefaultStages() {
      match k
      case Identity =>
      case Location =>
      case Network =>
      case Computer =>
      case Audio =>
      case Submit =>
      case Done =>
    }
  }

  /** The seven stage names are pairwise distinct. */
  lemma StageOrderDistinct()
    ensures forall i, j :: 0 <= i < j < |StageOrder| ==> StageOrder[i] != StageOrder[j]
  {
  }

  /** The stage `pageSuccess` leaves behind. */
  function Completed(st: Stage): Stage
  {
    st.(current := false, errored := false, complete := true)
  }

  /** The stage `pageSuccess` moves on to. */
  function Entered(st: Stage): Stage
  {
    st.(current := true, errored := false, complete := false)
  }

  /**
   * `pageSuccess(name)` on a table: the named stage is completed and, when it
   * has a `next`, that stage becomes current. A missing stage, or a `next`
   * naming a missing stage, throws a TypeError before anything is saved.
   */
  function AfterSuccess(s: Stages, name: StageName): (r: Option<Stages>)
    ensures r.Some? <==> name in s && (s[name].next.Some? ==> s[name].next.value in s)
    ensures r.Some? ==> r.value.Keys == s.Keys
    ensures r.Some? && s[name].next != Some(name) ==> r.value[name] == Completed(s[name])
    ensures r.Some? && s[name].next.Some? ==> r.value[s[name].next.value] == Entered(s[s[name].next.value])
    ensures r.Some? ==> forall k :: k in s && k != name && Some(k) != s[name].next ==> r.value[k] == s[k]
  {
    if name !in s then None
    else
      var done := s[name := Completed(s[name])];
      match s[name].next
      case None => Some(done)
      case Some(n) => if n in done then Some(done[n := Entered(done[n])]) else None
  }

  /** `pageError(name)` on a table: only the named stage changes. */
  function AfterError(s: Stages, name: StageName): (r: Option<Stages>)
    ensures r.Some? <==> name in s
    ensures r.Some? ==> r.value.Keys == s.Keys
    ensures r.Some? ==> r.value[name].current && r.value[name].errored && r.value[name].success == Some(false)
    ensures r.Some? ==> r.value[name] == s[name].(current := true, errored := true, success := Some(false))
    ensures r.Some? ==> forall k :: k in s && k != name ==> r.value[k] == s[k]
  {
    if name !in s then None
    else Some(s[name := s[name].(current := true, errored := true, success := Some(false))])
  }

  /** Writing a stage twice leaves only the second write. */
  lemma Overwrite(s: Stages, name: StageName, first: Stage, second: Stage)
    ensures s[name := first][name := second] == s[name := second]
  {
  }

  /** What `pageSuccess` went on to do once it saved the table. */
  datatype Advance = ChangedPage | StayedOnPage

  /** The `stages` entry of session storage. */
  class StageStore {
    var stored: Option<Stages>

    constructor()
      ensures stored == None
    {
      stored := None;
    }

    /** `getStages`: create and store the default table only when none is stored. */
    method GetStages() returns (s: Stages)
      modifies this
      ensures old(stored).Some? ==> stored == old(stored) && s == old(stored).value
      ensures old(stored).None? ==> stored == Some(DefaultStages()) && s == DefaultStages()
    {
      if stored.None? {
        stored := Some(DefaultStages());
      }
      s := stored.value;
    }

    /** `pageError` */
    method PageError(name: StageName) returns (r: Result<(), string>)
      modifies this
      ensures var before := if old(stored).Some? then old(stored).value else DefaultStages();
        && (r.Success? <==> name in before)
        && (r.Success? ==> stored == AfterError(before, name))
        && (r.Failure? ==> stored == Some(before))
    {
      var stages := GetStages();
      ghost var loaded := stages;
      if name !in stages {
        return Failure("TypeError");
      }
      ghost var e := loaded[name];
      stages := stages[name := stages[name].(current := true)];
      stages := stages[name := stages[name].(errored := true)];
      Overwrite(loaded, name, e.(current := true), e.(current := true, errored := true));
      stages := stages[name := stages[name].(success := Some(false))];
      Overwrite(loaded, name, e.(current := true, errored := true), e.(current := true, errored := true, success := Some(false)));
      stored := Some(stages);
      r := Success(());
    }

    /** `pageSuccess` */
    method PageSuccess(name: StageName) returns (r: Result<Advance, string>)
      modifies this
      ensures var before := if old(stored).Some? then old(stored).value else DefaultStages();
        && (r.Success? <==> AfterSuccess(before, name).Some?)
        && (r.Success? ==> stored == AfterSuccess(before, name))
        && (r.Success? ==> (r.value == ChangedPage <==> before[name].next.Some?))
        && (r.Failure? ==> stored == Some(before))
    {
      var stages := GetStages();
      ghost var loaded := stages;
      if name !in stages {
        return Failure("TypeError");
      }
      stages := MarkCompleted(stages, name);
      var nextPage := stages[name].next;
      if nextPage.Some? {
        var n := nextPage.value;
        if n !in stages {
          return Failure("TypeError");
        }
        stages := MarkEntered(stages, n);
        assert AfterSuccess(loaded, name) == Some(stages);
        stored := Some(stages);
        r := Success(ChangedPage);
      } else {
        assert AfterSuccess(loaded, name) == Some(stages);
        stored := Some(stages);
        r := Success(StayedOnPage);
      }
    }
  }

  /** The three field writes `pageSuccess` makes to the stage it leaves. */
  method MarkCompleted(stages: Stages, name: StageName) returns (t: Stages)
    requires name in stages
    ensures t == stages[name := Completed(stages[name])]
  {
    t := stages[name := stages[name].(current := false)];
    t := t[name := t[name].(errored := false)];
    t := t[name := t[name].(complete := true)];
  }

  /** The three field writes `pageSuccess` makes to the stage it moves on to. */
  method MarkEntered(stages: Stages, name: StageName) returns (t: Stages)
    requires name in stages
    ensures t == stages[name := Entered(stages[name])]
  {
    t := stages[name := stages[name].(current := true)];
    t := t[name := t[name].(errored := false)];
    t := t[name := t[name].(complete := false)];
  }

  /** Completing the stages of `names` one after another, failing if any step does. */
  function Walk(s: Stages, names: seq<StageName>): Option<Stages>
  {
    if names == [] then Some(s)
    else match AfterSuccess(s, names[0])
      case None => None
      case Some(t) => Walk(t, names[1..])
  }

  /** Where stage `j` of the default table stands after the first `i` stages succeed. */
  function Progress(j: nat, i: nat): Stage
    requires j < |StageOrder|
  {
    var first := j == 0;
    var next := if j + 1 < |StageOrder| then Some(StageOrder[j + 1]) else None;
    Stage(first, j == i, j < i, false, None, next)
  }

  /** A table holding exactly the seven stages, stage `j` standing at `Progress(j, i)`. */
  ghost predicate At(s: Stages, i: nat)
  {
    && (forall k :: k in s)
    && (forall j :: 0 <= j < |StageOrder| ==> s[StageOrder[j]] == Progress(j, i))
  }

  /** The default table is the walk before any stage succeeds. */
  lemma DefaultAtStart()
    ensures At(DefaultStages(), 0)
  {
    DefaultStagesShape();
    var s := DefaultStages();
    forall j | 0 <= j < |StageOrder| ensures s[StageOrder[j]] == Progress(j, 0) {
    }
  }

  /** Completing the current stage `i` moves the walk on by one. */
  lemma WalkStep(s: Stages, i: nat)
    requires i < |StageOrder| && At(s, i)
    ensures AfterSuccess(s, StageOrder[i]).Some?
    ensures At(AfterSuccess(s, StageOrder[i]).value, i + 1)
  {
    StageOrderDistinct();
    var name := StageOrder[i];
    assert name in s by { assert name in StageOrder; }
    assert s[name] == Progress(i, i);
    if i + 1 < |StageOrder| {
      assert StageOrder[i + 1] in StageOrder;
      assert s[name].next == Some(StageOrder[i + 1]);
    } else {
      assert s[name].next == None;
    }
    var t := AfterSuccess(s, name).value;
    assert t.Keys == s.Keys;
    forall j | 0 <= j < |StageOrder| ensures t[StageOrder[j]] == Progress(j, i + 1) {
      if j == i {
        assert t[name] == Completed(s[name]);
      } else if j == i + 1 {
        assert t[StageOrder[j]] == Entered(s[StageOrder[j]]);
      } else {
        assert StageOrder[j] != name && Some(StageOrder[j]) != s[name].next;
        assert t[StageOrder[j]] == s[StageOrder[j]];
      }
    }
  }

  /**
   * Starting from the default table, completing the first `i` stages in
   * order leaves those stages complete, makes stage `i` the only current one,
   * and leaves the later ones untouched.
   */
  lemma {:induction false} WalkDefault(i: nat)
    requires i <= |StageOrder|
    ensures Walk(DefaultStages(), StageOrder[..i]).Some?
    ensures At(Walk(DefaultStages(), StageOrder[..i]).value, i)
  {
    if i == 0 {
      assert StageOrder[..0] == [];
      DefaultAtStart();
    } else {
      WalkDefault(i - 1);
      WalkPrefix(DefaultStages(), i);
      WalkStep(Walk(DefaultStages(), StageOrder[..i - 1]).value, i - 1);
    }
  }

  lemma WalkPrefix(s: Stages, i: nat)
    requires 0 < i <= |StageOrder|
    ensures Walk(s, StageOrder[..i]) ==
      match Walk(s, StageOrder[..i - 1]) case None => None case Some(t) => AfterSuccess(t, StageOrder[i - 1])
  {
    WalkSnoc(s, StageOrder[..i - 1], StageOrder[i - 1]);
    assert StageOrder[..i] == StageOrder[..i - 1] + [StageOrder[i - 1]];
  }

  lemma {:induction false} WalkSnoc(s: Stages, names: seq<StageName>, last: StageName)
    ensures Walk(s, names + [last]) == match Walk(s, names) case None => None case Some(t) => AfterSuccess(t, last)
  {
    if names == [] {
      assert names + [last] == [last];
      assert [last][1..] == [];
    } else {
      assert (names + [last])[0] == names[0];
      assert (names + [last])[1..] == names[1..] + [last];
      match AfterSuccess(s, names[0])
      case None =>
      case Some(t) => WalkSnoc(t, names[1..], last);
    }
  }

  /** After every stage succeeds in order, all seven are complete and none is current. */
  lemma WalkAll()
    ensures Walk(DefaultStages(), StageOrder).Some?
    ensures var s := Walk(DefaultStages(), StageOrder).value;
      forall k :: k in s
    ensures var s := Walk(DefaultStages(), StageOrder).value;
      forall k :: k in s ==> s[k].complete && !s[k].current && !s[k].errored
  {
    WalkDefault(|StageOrder|);
    assert StageOrder[..|StageOrder|] == StageOrder;
    var s := Walk(DefaultStages(), StageOrder).value;
    forall k | k in s ensures s[k].complete && !s[k].current && !s[k].errored {
      var j :| 0 <= j < |StageOrder| && StageOrder[j] == k;
      assert s[StageOrder[j]] == Progress(j, |StageOrder|);
    }
  }

  // ---------------------------------------------------------------------
  // sendResults
  // ---------------------------------------------------------------------

  /** The result keys that are never sent: the uploaded objects and the key itself. */
  predicate Excluded(key: string)
  {
    key == "objects" || key == "apiKey"
  }

  /** Every member that is sent holds a string, so `replace` cannot throw. */
  predicate Sendable(results: seq<(string, Json)>)
  {
    forall i :: 0 <= i < |results| && !Excluded(results[i].0) ==> results[i].1.JString?
  }

  /** The body posted for sendable results: the kept members, sanitised, in key order. */
  function Body(results: seq<(string, Json)>): seq<(string, string)>
    requires Sendable(results)
  {
    BodyWith(results, Sanitize)
  }

  /** The kept members in key order, each string value passed through `clean`. */
  function BodyWith(results: seq<(string, Json)>, clean: string -> string): seq<(string, string)>
    requires Sendable(results)
  {
    if results == [] then []
    else
      var (key, value) := results[0];
      (if Excluded(key) then [] else [(key, clean(value.s))]) + BodyWith(results[1..], clean)
  }

  lemma SendableTail(results: seq<(string, Json)>)
    requires Sendable(results) && results != []
    ensures Sendable(results[1..])
  {
    var rest := results[1..];
    forall i | 0 <= i < |rest| && !Excluded(rest[i].0) ensures rest[i].1.JString? {
      assert rest[i] == results[i + 1];
    }
  }

  /** The body has exactly the result keys other than `objects` and `apiKey`. */
  lemma {:induction false} BodyKeys(results: seq<(string, Json)>, clean: string -> string)
    requires Sendable(results)
    ensures KeySet(BodyWith(results, clean)) == KeySet(results) - {"objects", "apiKey"}
  {
    if results != [] {
      SendableTail(results);
      BodyKeys(results[1..], clean);
      var head := if Excluded(results[0].0) then [] else [(results[0].0, clean(results[0].1.s))];
      KeySetAppend(head, BodyWith(results[1..], clean));
    }
  }

  /** Each body member is a result member with its string value sanitised. */
  lemma {:induction false} BodyValues(results: seq<(string, Json)>, clean: string -> string)
    requires Sendable(results)
    ensures forall i :: 0 <= i < |BodyWith(results, clean)| ==>
      exists j :: 0 <= j < |results| && results[j].1.JString? && BodyWith(results, clean)[i] == (results[j].0, clean(results[j].1.s))
  {
    if results != [] {
      var rest := results[1..];
      SendableTail(results);
      BodyValues(rest, clean);
      var head := if Excluded(results[0].0) then [] else [(results[0].0, clean(results[0].1.s))];
      var b := BodyWith(results, clean);
      assert b == head + BodyWith(rest, clean);
      forall i | 0 <= i < |b|
        ensures exists j :: 0 <= j < |results| && results[j].1.JString? && b[i] == (results[j].0, clean(results[j].1.s))
      {
        if i < |head| {
          assert b[i] == (results[0].0, clean(results[0].1.s));
        } else {
          assert b[i] == BodyWith(rest, clean)[i - |head|];
          var j :| 0 <= j < |rest| && rest[j].1.JString? && BodyWith(rest, clean)[i - |head|] == (rest[j].0, clean(rest[j].1.s));
          assert results[j + 1] == rest[j];
        }
      }
    } else {
      assert BodyWith(results, clean) == [];
    }
  }

  /** Every value in the body is safe to put in a CSV field. */
  lemma BodyCsvSafe(results: seq<(string, Json)>)
    requires Sendable(results)
    ensures forall i :: 0 <= i < |Body(results)| ==> SafeField(Body(results)[i].1)
  {
    BodyValues(results, Sanitize);
    forall i | 0 <= i < |Body(results)| ensures SafeField(Body(results)[i].1) {
      var j :| 0 <= j < |results| && results[j].1.JString? && Body(results)[i] == (results[j].0, Sanitize(results[j].1.s));
      SanitizeIsCsvSafe(results[j].1.s);
    }
  }

  /** The request `sendResults` posts. */
  datatype Post = Post(url: string, apiKey: Option<Json>, body: seq<(string, string)>)

  /**
   * `sendResults`, up to the post: build the body member by member; a sent
   * value that is not a string makes `replace` throw a TypeError, which is
   * rethrown.
   */
  method SendResults(results: seq<(string, Json)>, api: string) returns (r: Result<Post, string>)
    ensures r.Success? <==> Sendable(results)
    ensures r.Success? ==> r.value == Post(api + "/data", Lookup(results, "apiKey"), Body(results))
    ensures r.Failure? ==> r.error == "TypeError"
  {
    var apiKey := Lookup(results, "apiKey");
    var body := FillBody(results, Sanitize);
    match body {
      case None => r := Failure("TypeError");
      case Some(b) => r := Success(Post(api + "/data", apiKey, b));
    }
  }

  /** The `forEach` of `sendResults`, with its per-field clean-up as `clean`. */
  method FillBody(results: seq<(string, Json)>, clean: string -> string) returns (body: Option<seq<(string, string)>>)
    ensures body.Some? <==> Sendable(results)
    ensures body.Some? ==> body.value == BodyWith(results, clean)
  {
    var b: seq<(string, string)> := [];
    var i := 0;
    while i < |results|
      invariant 0 <= i <= |results|
      invariant Sendable(results[..i])
      invariant b == BodyWith(results[..i], clean)
    {
      var (key, value) := results[i];
      if !Excluded(key) {
        if !value.JString? {
          assert !Sendable(results);
          return None;
        }
        b := b + [(key, clean(value.s))];
      }
      BodySnoc(results[..i], results[i], clean);
      assert results[..i + 1] == results[..i] + [results[i]];
      i := i + 1;
    }
    assert results[..i] == results;
    body := Some(b);
  }

  lemma {:induction false} BodySnoc(results: seq<(string, Json)>, member: (string, Json), clean: string -> string)
    requires Sendable(results)
    requires !Excluded(member.0) ==> member.1.JString?
    ensures Sendable(results + [member])
    ensures BodyWith(results + [member], clean) == BodyWith(results, clean) + (if Excluded(member.0) then [] else [(member.0, clean(member.1.s))])
  {
    var all := results + [member];
    assert Sendable(all) by {
      forall i | 0 <= i < |all| && !Excluded(all[i].0) ensures all[i].1.JString? {
        if i < |results| { assert all[i] == results[i]; }
      }
    }
    if results != [] {
      var rest := results[1..];
      assert Sendable(rest) by {
        forall i | 0 <= i < |rest| && !Excluded(rest[i].0) ensures rest[i].1.JString? {
          assert rest[i] == results[i + 1];
        }
      }
      assert all[0] == results[0];
      assert all[1..] == rest + [member];
      BodySnoc(rest, member, clean);
    } else {
      assert all == [member];
    }
  }

  // ---------------------------------------------------------------------
  // each_upto
  // ---------------------------------------------------------------------

  /** `[...].join('')` */
  function Join(parts: seq<string>): string
  {
    if parts == [] then "" else parts[0] + Join(parts[1..])
  }

  /** How many elements `each_upto` renders: as many as both bounds allow. */
  function Upto(length: nat, max: int): (n: nat)
    ensures max <= 0 ==> n == 0
    ensures max > 0 ==> n <= max && n <= length && (n == max || n == length)
  {
    if max <= 0 then 0 else if max < length then max else length
  }

  /** The block rendered for each of the first `n` items, in order. */
  function Blocks<T>(items: seq<T>, n: nat, block: T -> string): (parts: seq<string>)
    requires n <= |items|
    ensures |parts| == n
    ensures forall i :: 0 <= i < n ==> parts[i] == block(items[i])
  {
    seq(n, i requires 0 <= i < n => block(items[i]))
  }

  /**
   * The `each_upto` Handlebars helper: the inverse block when the array is
   * missing or empty, otherwise the block rendered for each of the first
   * `max` elements, in order, joined.
   */
  method EachUpto<T>(ary: Option<seq<T>>, max: int, block: T -> string, inverse: string) returns (r: string)
    ensures ary.None? || ary.value == [] ==> r == inverse
    ensures ary.Some? && ary.value != [] ==> r == Join(Blocks(ary.value, Upto(|ary.value|, max), block))
  {
    if ary.None? || |ary.value| == 0 {
      return inverse;
    }
    var items := ary.value;
    var result: seq<string> := [];
    var i := 0;
    while i < max && i < |items|
      invariant 0 <= i <= |items| && i <= Upto(|items|, max)
      invariant result == Blocks(items, i, block)
    {
      assert Blocks(items, i + 1, block) == Blocks(items, i, block) + [block(items[i])];
      result := result + [block(items[i])];
      i := i + 1;
    }
    assert i == Upto(|items|, max);
    r := Join(result);
  }

  // ---------------------------------------------------------------------
  // timeUpload
  // ---------------------------------------------------------------------

  const Megabyte := 1024 * 1024

  /** `s.substring(start)`: empty once `start` passes the end. */
  function Substring(s: string, start: nat): (r: string)
    ensures |r| == if start <= |s| then |s| - start else 0
    ensures r == s[|s| - |r|..]
  {
    if start <= |s| then s[start..] else ""
  }

  /** The request `timeUpload` puts. */
  datatype Upload = Upload(url: string, payload: seq<int>)

  /**
   * `timeUpload`, up to the put: an array of `size` * 2^20 zeros, sent
   * to the signed URL with its first `origin.length` characters removed.
   */
  method TimeUpload(size: int, url: string, origin: string) returns (u: Upload)
    ensures |u.payload| == if size <= 0 then 0 else size * Megabyte
    ensures forall i :: 0 <= i < |u.payload| ==> u.payload[i] == 0
    ensures u.url == Substring(url, |origin|)
  {
    var payload: seq<int> := [];
    var bytes := size * 1024 * 1024;
    var i := 0;
    while i < bytes
      invariant 0 <= i && (bytes > 0 ==> i <= bytes) && (bytes <= 0 ==> i == 0)
      invariant |payload| == i
      invariant forall k :: 0 <= k < i ==> payload[k] == 0
    {
      payload := payload + [0];
      i := i + 1;
    }
    var actualUrl := Substring(url, |origin|);
    u := Upload(actualUrl, payload);
  }

  /**
   * When the signed URL starts with the site origin, removing that many
   * characters leaves exactly the path the origin was prefixed to.
   */
  lemma UploadUrlRoundTrip(origin: string, path: string)
    ensures origin + Substring(origin + path, |origin|) == origin + path
    ensures Substring(origin + path, |origin|) == path
  {
    assert (origin + path)[|origin|..] == path;
  }
}
