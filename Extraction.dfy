/** Pattern extraction: `extract` (first match, as a capture list or a
    record of named groups), `extractAll` (every match as a record) and the
    destructuring `let [token] = extract(...)` that the login and logout
    handshakes apply to it. The regular-expression engine itself is not
    modelled: a match is given as the engine reports it. */
module Extraction {
  import opened JsValues

  /** One match as the engine reports it: the whole matched text, the
      positional captures, and the named groups (None when the pattern has
      no named groups, where `mat.groups` is undefined). */
  datatype Match = Match(whole: string, captures: seq<string>, groups: Option<Record>)

  /** What `extract` returns for a match: the capture list of a pattern
      without named groups, or a record. */
  datatype Extracted = Positional(items: seq<string>) | Named(record: Record)

  /** `[...mat]`: the whole match followed by the captures. */
  function MatchArray(m: Match): seq<string> {
    [m.whole] + m.captures
  }

  /** `data.match(re)` for a non-global pattern: the first match in
      document order, or null. */
  function FirstMatch(ms: seq<Match>): Option<Match> {
    if ms == [] then None else Some(ms[0])
  }

  /** `groupRewriter(mat)`: a fresh plain object holding the named groups of
      a match; `Object.assign` copies nothing from `undefined`. */
  function GroupRewriter(m: Match): Record {
    if m.groups.Some? then m.groups.value else []
  }

  /** `extract` as its authors intended it: nothing on no match; for a
      pattern with named groups, the record of those groups; otherwise the
      captures without the whole match (`[...mat].slice(1)`). */
  function Extract(m: Option<Match>): (r: Option<Extracted>)
    ensures r.None? <==> m.None?
    ensures m.Some? && m.value.groups.None? ==>
      && r.Some? && r.value.Positional?
      && |r.value.items| == |MatchArray(m.value)| - 1
      && forall i :: 0 <= i < |r.value.items| ==> r.value.items[i] == MatchArray(m.value)[i + 1]
    ensures m.Some? && m.value.groups.Some? ==>
      r.Some? && r.value.Named? && r.value.record == m.value.groups.value
  {
    match m
    case None => None
    case Some(mm) =>
      if mm.groups.Some? then Some(Named(GroupRewriter(mm)))
      else Some(Positional(MatchArray(mm)[1..]))
  }

  /** `extract` as written: the named-group branch hands `mat.groups`, not
      `mat`, to `groupRewriter`, which then copies the `groups` property of
      the groups object. */
  function ExtractAsWritten(m: Option<Match>): Option<Extracted> {
    match m
    case None => None
    case Some(mm) =>
      if mm.groups.Some? then Some(Named(AssignFrom(Lookup(mm.groups.value, "groups"))))
      else Some(Positional(MatchArray(mm)[1..]))
  }

  /** `Object.assign({}, v)` for a property value `v` that is undefined
      (nothing copied) or a string (its characters, under their indices). */
  function AssignFrom(v: Option<string>): Record {
    match v
    case None => []
    case Some(s) => Spread(s, 0)
  }

  function Spread(s: string, from: nat): Record
    decreases |s| - from
  {
    if from >= |s| then [] else [(Decimal(from), [s[from]])] + Spread(s, from + 1)
  }

  /** On every pattern without named groups, which covers both token
      patterns, the as-written `extract` and the intended one agree. */
  lemma ExtractAsWrittenAgreesWithoutGroups(m: Option<Match>)
    requires m.None? || m.value.groups.None?
    ensures ExtractAsWritten(m) == Extract(m)
  {
  }

  /** As written, a match of a named-group pattern (with no group called
      `groups`) is turned into an empty object: every captured value is
      lost, while the intended `extract` keeps them. */
  lemma ExtractAsWrittenLosesGroups(m: Match)
    requires m.groups.Some? && m.groups.value != []
    requires Lookup(m.groups.value, "groups").None?
    ensures ExtractAsWritten(Some(m)) == Some(Named([]))
    ensures ExtractAsWritten(Some(m)) != Extract(Some(m))
  {
  }

  /** The concrete case: `/(?<id>[0-9]+)/` against "42". */
  lemma ExtractAsWrittenCounterexample()
    ensures ExtractAsWritten(Some(Match("42", ["42"], Some([("id", "42")])))) == Some(Named([]))
    ensures Extract(Some(Match("42", ["42"], Some([("id", "42")])))) == Some(Named([("id", "42")]))
  {
    assert Lookup([("id", "42")], "groups") == None;
  }

  /** The intended `extract` round-trips named groups: every group's
      captured value is found under its name in the extracted record. */
  lemma {:induction false} ExtractNamedRoundTrip(m: Match, name: string, value: string)
    requires m.groups.Some? && (name, value) in m.groups.value
    requires forall i, j :: 0 <= i < j < |m.groups.value| ==> m.groups.value[i].0 != m.groups.value[j].0
    ensures Extract(Some(m)).value.record == m.groups.value
    ensures Lookup(Extract(Some(m)).value.record, name) == Some(value)
  {
    UniqueLookup(m.groups.value, name, value);
  }

  lemma {:induction false} UniqueLookup(r: Record, name: string, value: string)
    requires (name, value) in r
    requires forall i, j :: 0 <= i < j < |r| ==> r[i].0 != r[j].0
    ensures Lookup(r, name) == Some(value)
  {
    if r[0] != (name, value) {
      var k :| 0 <= k < |r| && r[k] == (name, value);
      assert r[0].0 != name;
      assert r[1..][k - 1] == r[k];
      UniqueLookup(r[1..], name, value);
    }
  }

  /** `let [x] = v`: destructuring undefined or a plain object (neither is
      iterable) throws a TypeError; an array gives its first element, or
      undefined when it is empty. */
  function DestructureFirst(v: Option<Extracted>): (r: Completion<Option<string>>)
    ensures r.Threw? <==> v.None? || v.value.Named?
    ensures r.Threw? ==> r.error == TypeError
    ensures r.Returned? ==> (r.value.Some? <==> |v.value.items| > 0)
    ensures r.Returned? && r.value.Some? ==> r.value.value == v.value.items[0]
  {
    match v
    case None => Threw(TypeError)
    case Some(Named(_)) => Threw(TypeError)
    case Some(Positional(items)) => Returned(if items == [] then None else Some(items[0]))
  }

  /** `let [token] = extract(text, PATTERN)` where `ms` are the pattern's
      matches in the text: a page without a match throws, a page with one
      yields the first capture of the first match. */
  function Token(ms: seq<Match>): (r: Completion<Option<string>>)
    ensures ms == [] ==> r == Threw(TypeError)
    ensures ms != [] && ms[0].groups.None? && |ms[0].captures| > 0 ==> r == Returned(Some(ms[0].captures[0]))
    ensures ms != [] && ms[0].groups.None? && ms[0].captures == [] ==> r == Returned(None)
  {
    DestructureFirst(Extract(FirstMatch(ms)))
  }

  /** Whatever `extract` makes of a page, the destructuring in the login
      and logout handshakes ends the same way with the code as written: a
      named-group match throws either way. */
  lemma TokenAsWritten(ms: seq<Match>)
    ensures DestructureFirst(ExtractAsWritten(FirstMatch(ms))) == Token(ms)
  {
  }

  /** `extractAll`: every match, in document order, as the record of its
      named groups. */
  function ExtractAll(ms: seq<Match>): (r: seq<Record>)
    ensures |r| == |ms|
    ensures forall i :: 0 <= i < |ms| && ms[i].groups.Some? ==> r[i] == ms[i].groups.value
    ensures forall i :: 0 <= i < |ms| && ms[i].groups.None? ==> r[i] == []
  {
    if ms == [] then [] else [GroupRewriter(ms[0])] + ExtractAll(ms[1..])
  }

  /** Extraction from consecutive stretches of a page concatenates: the
      records keep document order. */
  lemma {:induction false} ExtractAllAppend(a: seq<Match>, b: seq<Match>)
    ensures ExtractAll(a + b) == ExtractAll(a) + ExtractAll(b)
  {
    if a == [] {
      assert a + b == b;
    } else {
      assert (a + b)[1..] == a[1..] + b;
      ExtractAllAppend(a[1..], b);
    }
  }
}
