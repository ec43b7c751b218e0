/** The index from local credentials to partners (core/local_credentials_index.go). */
module LocalCredentialsIndex {
  import opened Common
  import opened Text

  type PartnerId = string

  // ---------------------------------------------------------------- splitting

  /** The text before the first comma. */
  function Head(s: string): string {
    if s == "" || s[0] == ',' then "" else [s[0]] + Head(s[1..])
  }

  lemma {:induction false} HeadIsPrefix(s: string)
    ensures |Head(s)| <= |s| && Head(s) == s[..|Head(s)|] && ',' !in Head(s)
    ensures |Head(s)| < |s| ==> s[|Head(s)|] == ','
  {
    if s != "" && s[0] != ',' {
      HeadIsPrefix(s[1..]);
    }
  }

  /** strings.Split(s, ","): there is always one piece more than there are commas. */
  function Split(s: string): seq<string>
    decreases |s|
  {
    HeadIsPrefix(s);
    if |Head(s)| == |s| then [s] else [Head(s)] + Split(s[|Head(s)| + 1..])
  }

  /** The pieces, trimmed, without the empty ones. */
  function NonEmpty(pieces: seq<string>): seq<string> {
    if pieces == [] then []
    else
      var last := TrimSpace(pieces[|pieces| - 1]);
      NonEmpty(pieces[..|pieces| - 1]) + if last != "" then [last] else []
  }

  function Credentials(c: string): seq<string> {
    if c == "" then [""] else NonEmpty(Split(c))
  }

  method SplitCredentials(c: string) returns (r: seq<string>)
    ensures r == Credentials(c)
  {
    if c == "" {
      return [""];
    }
    r := [];
    var sc := Split(c);
    for i := 0 to |sc|
      invariant r == NonEmpty(sc[..i])
    {
      assert sc[..i + 1][..i] == sc[..i];
      var piece := TrimSpace(sc[i]);
      if piece != "" {
        r := r + [piece];
      }
    }
    assert sc[..|sc|] == sc;
  }

  /** A credential that survives splitting unchanged: not empty, no comma, no outer space. */
  predicate Clean(c: string) {
    c != "" && ',' !in c && !IsSpace(c[0]) && !IsSpace(c[|c| - 1])
  }

  function Join(credentials: seq<string>): string {
    if credentials == [] then ""
    else if |credentials| == 1 then credentials[0]
    else credentials[0] + "," + Join(credentials[1..])
  }

  lemma {:induction false} HeadOfJoin(c: string, rest: string)
    requires ',' !in c
    ensures Head(c + "," + rest) == c
    ensures Head(c) == c
  {
    if c == "" {
      assert c + "," + rest == "," + rest;
    } else {
      assert (c + "," + rest)[1..] == c[1..] + "," + rest;
      HeadOfJoin(c[1..], rest);
    }
  }

  lemma {:induction false} SplitOfJoin(credentials: seq<string>)
    requires credentials != [] && forall c :: c in credentials ==> Clean(c)
    ensures Split(Join(credentials)) == credentials
  {
    var c := credentials[0];
    assert Clean(c);
    if |credentials| == 1 {
      HeadOfJoin(c, "");
    } else {
      var rest := Join(credentials[1..]);
      HeadOfJoin(c, rest);
      assert (c + "," + rest)[|c| + 1..] == rest;
      SplitOfJoin(credentials[1..]);
    }
  }

  lemma {:induction false} NonEmptyOfClean(pieces: seq<string>)
    requires forall c :: c in pieces ==> Clean(c)
    ensures NonEmpty(pieces) == pieces
  {
    if pieces != [] {
      var n := |pieces| - 1;
      assert Clean(pieces[n]) && TrimSpace(pieces[n]) == pieces[n];
      NonEmptyOfClean(pieces[..n]);
    }
  }

  /** Splitting undoes joining with commas. */
  lemma SplitUndoesJoin(credentials: seq<string>)
    requires credentials != [] && forall c :: c in credentials ==> Clean(c)
    ensures Credentials(Join(credentials)) == credentials
  {
    SplitOfJoin(credentials);
    NonEmptyOfClean(credentials);
    assert Clean(credentials[0]);
  }

  lemma {:induction false} TrimmedIsClean(s: string)
    requires ',' !in s && TrimSpace(s) != ""
    ensures Clean(TrimSpace(s))
  {
    TrimLeftCut(s);
    TrimRightCut(TrimLeft(s));
  }

  lemma {:induction false} TrimLeftCut(s: string)
    ensures TrimLeft(s) != "" ==> !IsSpace(TrimLeft(s)[0])
    ensures forall c :: c in TrimLeft(s) ==> c in s
  {
    if s != "" && IsSpace(s[0]) {
      TrimLeftCut(s[1..]);
    }
  }

  lemma {:induction false} TrimRightCut(s: string)
    ensures TrimRight(s) <= s
    ensures TrimRight(s) != "" ==> !IsSpace(TrimRight(s)[|TrimRight(s)| - 1])
  {
    if s != "" && IsSpace(s[|s| - 1]) {
      TrimRightCut(s[..|s| - 1]);
    }
  }

  lemma {:induction false} PiecesHaveNoComma(s: string)
    ensures forall p :: p in Split(s) ==> ',' !in p
    decreases |s|
  {
    HeadIsPrefix(s);
    if |Head(s)| < |s| {
      PiecesHaveNoComma(s[|Head(s)| + 1..]);
    }
  }

  lemma {:induction false} NonEmptyAreClean(pieces: seq<string>)
    requires forall p :: p in pieces ==> ',' !in p
    ensures forall c :: c in NonEmpty(pieces) ==> Clean(c)
  {
    if pieces != [] {
      var n := |pieces| - 1;
      NonEmptyAreClean(pieces[..n]);
      if TrimSpace(pieces[n]) != "" {
        TrimmedIsClean(pieces[n]);
      }
    }
  }

  /** Every credential found in a text is clean, except the empty one of the empty text. */
  lemma CredentialsAreClean(s: string)
    ensures forall c :: c in Credentials(s) ==> Clean(c) || (s == "" && c == "")
  {
    PiecesHaveNoComma(s);
    NonEmptyAreClean(Split(s));
  }

  /** Strictly increasing positions, which are exactly those of the elements of `a` that are not in `b`. */
  ghost predicate PositionsOutside(positions: seq<int>, a: seq<string>, b: seq<string>) {
    && (forall j, k :: 0 <= j < k < |positions| ==> positions[j] < positions[k])
    && (forall k :: 0 <= k < |positions| ==> 0 <= positions[k] < |a| && a[positions[k]] !in b)
    && (forall i :: 0 <= i < |a| && a[i] !in b ==> i in positions)
  }

  /** The elements of `a` that are not in `b`, in their order and as often as in `a`. */
  method Difference(a: seq<string>, b: seq<string>) returns (diff: seq<string>, ghost positions: seq<int>)
    ensures PositionsOutside(positions, a, b)
    ensures |diff| == |positions| && forall k :: 0 <= k < |diff| ==> diff[k] == a[positions[k]]
    ensures forall x :: x in diff <==> x in a && x !in b
  {
    diff, positions := [], [];
    for i := 0 to |a|
      invariant PositionsOutside(positions, a[..i], b)
      invariant |diff| == |positions| && forall k :: 0 <= k < |diff| ==> diff[k] == a[positions[k]]
    {
      assert a[..i + 1] == a[..i] + [a[i]];
      if a[i] !in b {
        diff, positions := diff + [a[i]], positions + [i];
      }
    }
    assert a[..|a|] == a;
    forall x | x in a && x !in b ensures x in diff {
      var i :| 0 <= i < |a| && a[i] == x;
      assert i in positions;
    }
  }

  // ---------------------------------------------------------------- the index

  datatype Table = Table(byCredentials: map<string, PartnerId>, byIdentifier: map<PartnerId, seq<string>>)

  const EMPTY := Table(map[], map[])

  function Held(t: Table, p: PartnerId): seq<string> {
    if p in t.byIdentifier then t.byIdentifier[p] else []
  }

  function Indexed(t: Table, p: PartnerId, credentials: seq<string>): Table {
    Table((t.byCredentials - (set c | c in Held(t, p) && c !in credentials)) + (map c | c in credentials :: p),
          t.byIdentifier[p := credentials])
  }

  function Deleted(t: Table, p: PartnerId): Table {
    if p !in t.byIdentifier then t
    else Table(t.byCredentials - (set c | c in t.byIdentifier[p]), t.byIdentifier - {p})
  }

  function Lookup(t: Table, c: string): Option<PartnerId> {
    if c in t.byCredentials then Some(t.byCredentials[c]) else None
  }

  /** A credential that is not empty leads to the partner that holds it, and only to it. */
  ghost predicate Exact(t: Table) {
    forall c, p :: c != "" ==> (Lookup(t, c) == Some(p) <==> c in Held(t, p))
  }

  /** No other partner has one of these credentials. */
  predicate Unique(t: Table, p: PartnerId, credentials: seq<string>) {
    forall c :: c in credentials ==> Lookup(t, c) in {None, Some(p)}
  }

  lemma LookupIndexed(t: Table, p: PartnerId, credentials: seq<string>, c: string)
    ensures Lookup(Indexed(t, p, credentials), c) ==
            if c in credentials then Some(p) else if c in Held(t, p) then None else Lookup(t, c)
  {
  }

  lemma IndexedIsExact(t: Table, p: PartnerId, credentials: seq<string>)
    requires Exact(t) && (Unique(t, p, credentials) || credentials == [""])
    ensures Exact(Indexed(t, p, credentials))
  {
    var t' := Indexed(t, p, credentials);
    forall c, q | c != "" ensures Lookup(t', c) == Some(q) <==> c in Held(t', q) {
      LookupIndexed(t, p, credentials, c);
      assert Lookup(t, c) == Some(q) <==> c in Held(t, q);
      assert Lookup(t, c) == Some(p) <==> c in Held(t, p);
      assert Held(t', q) == if q == p then credentials else Held(t, q);
    }
  }

  lemma DeletedIsExact(t: Table, p: PartnerId)
    requires Exact(t)
    ensures Exact(Deleted(t, p))
  {
    var t' := Deleted(t, p);
    forall c, q | c != "" ensures Lookup(t', c) == Some(q) <==> c in Held(t', q) {
      assert Lookup(t, c) == Some(q) <==> c in Held(t, q);
      assert Lookup(t, c) == Some(p) <==> c in Held(t, p);
      assert Held(t', q) == if q == p then [] else Held(t, q);
    }
  }

  datatype Operation = Put(partner: PartnerId, localCredentials: string) | Drop(partner: PartnerId)

  function Apply(t: Table, op: Operation): Table {
    match op
    case Put(p, s) => Indexed(t, p, Credentials(s))
    case Drop(p) => Deleted(t, p)
  }

  function Run(ops: seq<Operation>): Table {
    if ops == [] then EMPTY else Apply(Run(ops[..|ops| - 1]), ops[|ops| - 1])
  }

  /** The text each partner was last indexed with. */
  function Current(ops: seq<Operation>): map<PartnerId, string> {
    if ops == [] then map[]
    else
      var before := Current(ops[..|ops| - 1]);
      match ops[|ops| - 1]
      case Put(p, s) => before[p := s]
      case Drop(p) => before - {p}
  }

  /** Every text was found unique before it was indexed; the empty text needs no check. */
  ghost predicate Checked(ops: seq<Operation>) {
    forall n :: 0 <= n < |ops| ==> CheckedAt(ops, n)
  }

  ghost predicate CheckedAt(ops: seq<Operation>, n: nat)
    requires n < |ops|
  {
    ops[n].Put? && ops[n].localCredentials != "" ==>
      Unique(Run(ops[..n]), ops[n].partner, Credentials(ops[n].localCredentials))
  }

  /** After every run of checked operations, a credential that is not empty is found exactly
      for the partner whose last text lists it. */
  lemma RunFindsExactly(ops: seq<Operation>, c: string, p: PartnerId)
    requires Checked(ops) && c != ""
    ensures Exact(Run(ops))
    ensures Lookup(Run(ops), c) == Some(p) <==> p in Current(ops) && c in Credentials(Current(ops)[p])
  {
    RunIsExact(ops);
    assert Lookup(Run(ops), c) == Some(p) <==> c in Held(Run(ops), p);
  }

  lemma {:induction false} RunIsExact(ops: seq<Operation>)
    requires Checked(ops)
    ensures Exact(Run(ops))
    ensures forall p :: Held(Run(ops), p) == if p in Current(ops) then Credentials(Current(ops)[p]) else []
    decreases |ops|
  {
    if ops != [] {
      var n := |ops| - 1;
      forall i | 0 <= i < n ensures CheckedAt(ops[..n], i) {
        assert CheckedAt(ops, i) && ops[..n][..i] == ops[..i];
      }
      RunIsExact(ops[..n]);
      assert CheckedAt(ops, n);
      match ops[n]
      case Put(p, s) => IndexedIsExact(Run(ops[..n]), p, Credentials(s));
      case Drop(p) => DeletedIsExact(Run(ops[..n]), p);
    }
  }

  class LocalCredentialsIndex {
    var byCredentials: map<string, PartnerId>
    var byIdentifier: map<PartnerId, seq<string>>

    ghost function Contents(): Table
      reads this
    {
      Table(byCredentials, byIdentifier)
    }

    constructor ()
      ensures Contents() == EMPTY
    {
      byCredentials := map[];
      byIdentifier := map[];
    }

    method Index(modelId: PartnerId, localCredentials: string)
      modifies this
      ensures Contents() == Indexed(old(Contents()), modelId, Credentials(localCredentials))
    {
      var credentials := SplitCredentials(localCredentials);
      var current := if modelId in byIdentifier then byIdentifier[modelId] else [];
      var obsolete, _ := Difference(current, credentials);
      for i := 0 to |obsolete|
        invariant byIdentifier == old(byIdentifier)
        invariant byCredentials == old(byCredentials) - Prefix(obsolete, i)
      {
        PrefixGrows(obsolete, i);
        MinusGrows(old(byCredentials), Prefix(obsolete, i), obsolete[i]);
        byCredentials := byCredentials - {obsolete[i]};
      }
      assert Prefix(obsolete, |obsolete|) == set c | c in current && c !in credentials;
      ghost var all := map c | c in credentials :: modelId;
      ghost var base := byCredentials;
      for i := 0 to |credentials|
        invariant byIdentifier == old(byIdentifier)
        invariant byCredentials == base + Restrict(all, Prefix(credentials, i))
      {
        PrefixGrows(credentials, i);
        RestrictGrows(base, all, Prefix(credentials, i), credentials[i]);
        byCredentials := byCredentials[credentials[i] := modelId];
      }
      assert Restrict(all, Prefix(credentials, |credentials|)) == all;
      byIdentifier := byIdentifier[modelId := credentials];
    }

    method Find(c: string) returns (modelId: PartnerId, ok: bool)
      ensures Lookup(Contents(), c) == if ok then Some(modelId) else None
    {
      ok := c in byCredentials;
      modelId := if ok then byCredentials[c] else "";
    }

    method Delete(modelId: PartnerId)
      modifies this
      ensures Contents() == Deleted(old(Contents()), modelId)
    {
      if modelId !in byIdentifier {
        return;
      }
      var current := byIdentifier[modelId];
      for i := 0 to |current|
        invariant byIdentifier == old(byIdentifier)
        invariant byCredentials == old(byCredentials) - Prefix(current, i)
      {
        PrefixGrows(current, i);
        MinusGrows(old(byCredentials), Prefix(current, i), current[i]);
        byCredentials := byCredentials - {current[i]};
      }
      assert Prefix(current, |current|) == set c | c in current;
      byIdentifier := byIdentifier - {modelId};
    }

    method UniqCredentials(modelId: PartnerId, localCredentials: string) returns (unique: bool)
      ensures unique <==> Unique(Contents(), modelId, Credentials(localCredentials))
    {
      var credentials := SplitCredentials(localCredentials);
      for i := 0 to |credentials|
        invariant forall j :: 0 <= j < i ==> Lookup(Contents(), credentials[j]) in {None, Some(modelId)}
      {
        if credentials[i] in byCredentials && byCredentials[credentials[i]] != modelId {
          assert credentials[i] in credentials;
          return false;
        }
      }
      return true;
    }
  }
}
