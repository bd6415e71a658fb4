/**
 The per-request middleware. For every request it
   1. tags the request's duration measurement with `mkt_medium`, when the
      hosting layer offers per-request tags,
   2. records the request on the custom counter under its path,
   3. hands the request on to the next stage.

 The step is modelled as the ordered list of effects it performs (`Plan`),
 and the state those effects lead to (`Run`); `Handle` is the two together.
 The next stage itself is not modelled: forwarding only marks the request
 as handed on.
 */
module Middleware {
  import opened Classifier
  import opened Metrics

  const MediumParameter: string := "utm_medium"
  const MediumKey: string := "mkt_medium"

  /**
   The per-request tags capability: absent when the hosting layer does not
   offer it, otherwise holding the tags added to the measurement so far.
   */
  datatype TagsFeature = Absent | Present(tags: seq<Tag>)

  /** One `key=value` pair of the query string, in the order it was given. */
  datatype Param = Param(key: string, value: string)

  /**
   A request as the middleware sees it: its path, its query parameters in
   order, and its tags capability.
   */
  datatype Request = Request(path: string, query: seq<Param>, feature: TagsFeature)

  /** What is left of a request once the middleware is done with it. */
  datatype Outcome = Outcome(feature: TagsFeature, forwarded: bool)

  /** One effect of the middleware, in the order it performs them. */
  datatype Action = AddTag(tag: Tag) | Register(path: string) | Forward

  /** An ASCII letter folded to lower case; every other character is kept. */
  function Lower(ch: char): char {
    if 'A' <= ch <= 'Z' then (ch as int + 32) as char else ch
  }

  /** Query keys are compared without regard to letter case. */
  predicate KeyMatches(key: string, name: string) {
    |key| == |name| && forall i :: 0 <= i < |key| ==> Lower(key[i]) == Lower(name[i])
  }

  /** The values given for a parameter, under any spelling of its key, in query order. */
  function Values(query: seq<Param>, name: string): (vs: seq<string>)
    ensures |vs| <= |query|
    decreases |query|
  {
    if |query| == 0 then []
    else (if KeyMatches(query[0].key, name) then [query[0].value] else []) + Values(query[1..], name)
  }

  /** The values that are not empty, in order. */
  function NonEmpty(vs: seq<string>): (r: seq<string>)
    ensures |r| <= |vs|
    ensures forall i :: 0 <= i < |r| ==> r[i] != ""
    decreases |vs|
  {
    if |vs| == 0 then []
    else (if vs[0] == "" then [] else [vs[0]]) + NonEmpty(vs[1..])
  }

  /** Strings joined with commas between them. */
  function Join(vs: seq<string>): (s: string)
    ensures |vs| == 0 ==> s == ""
    ensures |vs| == 1 ==> s == vs[0]
    ensures |vs| >= 2 ==> ',' in s
    ensures |vs| >= 1 && vs[0] != "" ==> s != ""
    decreases |vs|
  {
    if |vs| == 0 then ""
    else if |vs| == 1 then vs[0]
    else
      var s := vs[0] + "," + Join(vs[1..]);
      assert s[|vs[0]|] == ',';
      s
  }

  /**
   The text of a query parameter: its non-empty values joined with commas,
   so empty when it is missing or has only empty values.
   */
  function QueryText(query: seq<Param>, name: string): (s: string)
    ensures s == "" <==> |NonEmpty(Values(query, name))| == 0
    ensures |NonEmpty(Values(query, name))| == 1 ==> s == NonEmpty(Values(query, name))[0]
    ensures |NonEmpty(Values(query, name))| >= 2 ==> ',' in s
  {
    Join(NonEmpty(Values(query, name)))
  }

  /**
   The `mkt_medium` tag a request is given: "none" when `utm_medium` has no
   non-empty value, the classification of the value when it has one, and
   "other" when it has several.
   */
  function MediumTag(req: Request): (t: Tag)
    ensures t.key == MediumKey
    ensures t.value in Labels
    ensures |NonEmpty(Values(req.query, MediumParameter))| == 0 ==> t.value == "none"
    ensures |NonEmpty(Values(req.query, MediumParameter))| == 1 ==>
      t.value == TagValue(NonEmpty(Values(req.query, MediumParameter))[0])
    ensures |NonEmpty(Values(req.query, MediumParameter))| >= 2 ==> t.value == "other"
  {
    var q := QueryText(req.query, MediumParameter);
    if |NonEmpty(Values(req.query, MediumParameter))| >= 2 then
      assert q !in {"", "social", "email", "organic"} by {
        assert ',' in q;
      }
      Tag(MediumKey, TagValue(q))
    else
      Tag(MediumKey, TagValue(q))
  }

  /**
   An empty value is skipped and the key is matched in any case: a query of
   `utm_medium=` and `UTM_MEDIUM=social` is tagged "social".
   */
  lemma EmptyValueSkipped(path: string, tags: seq<Tag>)
    ensures MediumTag(Request(path, [Param("utm_medium", ""), Param("UTM_MEDIUM", "social")], Present(tags))).value == "social"
  {
  }


  /** The effects the middleware performs for a request, in order. */
  function Plan(req: Request): (acts: seq<Action>)
    ensures |acts| == if req.feature.Present? then 3 else 2
    ensures acts[|acts| - 1] == Forward
    ensures acts[|acts| - 2] == Register(req.path)
    ensures req.feature.Present? ==> acts[0] == AddTag(MediumTag(req))
  {
    (if req.feature.Present? then [AddTag(MediumTag(req))] else []) + [Register(req.path), Forward]
  }

  /** The effect of one action on the counter and on the request. */
  function Perform(c: Counter, o: Outcome, a: Action): (Counter, Outcome) {
    match a
    case AddTag(t) =>
      if o.feature.Present? then (c, o.(feature := Present(o.feature.tags + [t]))) else (c, o)
    case Register(p) => (RegisterRequest(c, p), o)
    case Forward => (c, o.(forwarded := true))
  }

  /** The actions performed one after another. */
  function Run(c: Counter, o: Outcome, acts: seq<Action>): (Counter, Outcome)
    decreases |acts|
  {
    if |acts| == 0 then (c, o)
    else
      var next := Perform(c, o, acts[0]);
      Run(next.0, next.1, acts[1..])
  }

  /** The middleware applied to one request, given the counter before it. */
  function Handle(c: Counter, req: Request): (r: (Counter, Outcome))
    ensures r.1.forwarded
    ensures req.feature.Absent? ==> r.1.feature == Absent
    ensures req.feature.Present? ==>
      r.1.feature == Present(req.feature.tags + [Tag(MediumKey, TagValue(QueryText(req.query, MediumParameter)))])
    ensures r.0 == RegisterRequest(c, req.path)
  {
    var acts, o := Plan(req), Outcome(req.feature, false);
    var c', last := RegisterRequest(c, req.path), [Forward];
    var rest := [Register(req.path)] + last;
    assert Run(c', o, last) == (c', o.(forwarded := true)) by {
      assert last[1..] == [];
    }
    assert Run(c, o, rest) == (c', o.(forwarded := true)) by {
      assert rest[1..] == last;
    }
    if req.feature.Present? then
      var tagged := Perform(c, o, acts[0]);
      assert tagged == (c, o.(feature := Present(req.feature.tags + [MediumTag(req)])));
      assert Run(c, tagged.1, rest) == (c', tagged.1.(forwarded := true));
      assert acts[1..] == rest;
      Run(c, o, acts)
    else
      assert acts == rest;
      Run(c, o, acts)
  }

  /**
   Every request is recorded exactly once, with its own path, and handed on
   exactly once, as the last effect; recording comes right before handing
   on. A `mkt_medium` tag is added once, first, when the capability is
   present, and never otherwise.
   */
  lemma PlanOrder(req: Request)
    ensures forall i :: 0 <= i < |Plan(req)| ==> (Plan(req)[i] == Forward <==> i == |Plan(req)| - 1)
    ensures forall i :: 0 <= i < |Plan(req)| ==> (Plan(req)[i].Register? <==> i == |Plan(req)| - 2)
    ensures forall i :: 0 <= i < |Plan(req)| ==> (Plan(req)[i].AddTag? <==> req.feature.Present? && i == 0)
  {
  }

  /** The paths of a run of requests, in arrival order. */
  function Paths(reqs: seq<Request>): (ps: seq<string>)
    ensures |ps| == |reqs|
    ensures forall i :: 0 <= i < |reqs| ==> ps[i] == reqs[i].path
    decreases |reqs|
  {
    if |reqs| == 0 then [] else Paths(reqs[..|reqs| - 1]) + [reqs[|reqs| - 1].path]
  }

  /** A run of requests passed through the middleware one after another. */
  function Serve(c: Counter, reqs: seq<Request>): Counter
    decreases |reqs|
  {
    if |reqs| == 0 then c else Handle(Serve(c, reqs[..|reqs| - 1]), reqs[|reqs| - 1]).0
  }

  /** Serving requests records exactly their paths, in order, on the counter. */
  lemma {:induction false} ServeRecordsPaths(c: Counter, reqs: seq<Request>)
    ensures Serve(c, reqs) == Replay(c, Paths(reqs))
    decreases |reqs|
  {
    if |reqs| > 0 {
      var prefix := reqs[..|reqs| - 1];
      ServeRecordsPaths(c, prefix);
      assert Paths(reqs)[..|reqs| - 1] == Paths(prefix);
    }
  }

  /**
   After any run of requests, whether or not they could be tagged, the count
   of each path has grown by exactly the number of requests to that path.
   */
  lemma ServeCount(c: Counter, reqs: seq<Request>, path: string)
    ensures Count(Serve(c, reqs), path) == Count(c, path) + multiset(Paths(reqs))[path]
  {
    ServeRecordsPaths(c, reqs);
    ReplayCount(c, Paths(reqs), path);
  }
}
