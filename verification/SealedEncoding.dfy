/** The digested texts of the custody model are uniquely decodable, so a digest
    without collisions pins what was digested (model.py: the stage aggregate, the
    set identity and the controller-source digest). */
module SealedEncoding {
  import opened Common
  import opened Ordering
  import opened SealedModel
  import opened Texts

  predicate Free(s: string, c: char) {
    forall i :: 0 <= i < |s| ==> s[i] != c
  }

  lemma FirstSeparator(x: string, c: char, p: string)
    requires Free(x, c)
    ensures var text := x + [c] + p;
            text[|x|] == c && x == text[..|x|] && p == text[|x| + 1..] && forall i :: 0 <= i < |x| ==> text[i] != c
  {
  }

  // A text up to the first separator is determined by the whole.
  lemma SplitAt(x: string, y: string, c: char, p: string, q: string)
    requires Free(x, c) && Free(y, c)
    requires x + [c] + p == y + [c] + q
    ensures x == y && p == q
  {
    FirstSeparator(x, c, p);
    FirstSeparator(y, c, q);
    assert !(|x| < |y|) && !(|y| < |x|);
  }

  // ---- rows ---------------------------------------------------------------

  predicate CleanRow(r: Row) {
    Free(r.id, '\t') && Free(r.digest, '\n')
  }

  predicate CleanRows(rows: seq<Row>) {
    forall i :: 0 <= i < |rows| ==> CleanRow(rows[i])
  }

  lemma RowSplits(a: Row, b: Row, p: string, q: string)
    requires CleanRow(a) && CleanRow(b) && RowText(a) + p == RowText(b) + q
    ensures a == b && p == q
  {
    assert RowText(a) + p == a.id + ['\t'] + (a.digest + ['\n'] + p);
    assert RowText(b) + q == b.id + ['\t'] + (b.digest + ['\n'] + q);
    SplitAt(a.id, b.id, '\t', a.digest + ['\n'] + p, b.digest + ['\n'] + q);
    SplitAt(a.digest, b.digest, '\n', p, q);
  }

  // The stage preimage determines its rows.
  lemma {:induction false} RowsDecode(a: seq<Row>, b: seq<Row>)
    requires CleanRows(a) && CleanRows(b) && RowsText(a) == RowsText(b)
    ensures a == b
  {
    if a != [] && b != [] {
      RowSplits(a[0], b[0], RowsText(a[1..]), RowsText(b[1..]));
      RowsDecode(a[1..], b[1..]);
      assert a == [a[0]] + a[1..] && b == [b[0]] + b[1..];
    }
  }

  lemma DigestIsClean(d: string)
    requires IsDigest(d)
    ensures Free(d, '\n') && Free(d, '\t') && d != "development" && d != "holdout"
  {
    forall i | 0 <= i < |d| ensures d[i] != '\n' && d[i] != '\t' {
      if i < 7 {
        assert d[i] == d[..7][i];
      } else {
        assert d[i] == d[7..][i - 7];
      }
    }
  }

  lemma WellFormedIsClean(rows: seq<Row>)
    requires RowsWellFormed(rows)
    ensures CleanRows(rows)
  {
    forall i | 0 <= i < |rows| ensures CleanRow(rows[i]) {
      DigestIsClean(rows[i].digest);
    }
  }

  // Without collisions the aggregate pins the rows, up to their order.
  lemma AggregatePinsRows(lab: Lab, a: seq<Row>, b: seq<Row>)
    requires RowsWellFormed(a) && RowsWellFormed(b) && a == SortRows(a) && b == SortRows(b)
    requires NoCollision(lab.hash, {RowsText(a), RowsText(b)})
    requires Aggregate(lab, a) == Aggregate(lab, b)
    ensures a == b
  {
    WellFormedIsClean(a);
    WellFormedIsClean(b);
    hide RowsWellFormed, SortRows;
    RowsDecode(a, b);
  }

  // ---- the set identity ---------------------------------------------------

  predicate CleanLines(lines: seq<string>) {
    forall i :: 0 <= i < |lines| ==> Free(lines[i], '\n')
  }

  lemma {:induction false} LinesDecode(a: seq<string>, b: seq<string>)
    requires CleanLines(a) && CleanLines(b) && LinesText(a) == LinesText(b)
    ensures a == b
  {
    if a != [] && b != [] {
      assert LinesText(a) == a[0] + ['\n'] + LinesText(a[1..]);
      assert LinesText(b) == b[0] + ['\n'] + LinesText(b[1..]);
      SplitAt(a[0], b[0], '\n', LinesText(a[1..]), LinesText(b[1..]));
      LinesDecode(a[1..], b[1..]);
      assert a == [a[0]] + a[1..] && b == [b[0]] + b[1..];
    }
  }

  predicate AllDigests(s: seq<string>) {
    forall i :: 0 <= i < |s| ==> IsDigest(s[i])
  }

  // The marker between the stages is not a digest, so it is found again.
  lemma {:induction false} MarkerSplits(a: seq<string>, b: seq<string>, p: seq<string>, q: seq<string>)
    requires AllDigests(a) && AllDigests(b)
    requires a + ["holdout"] + p == b + ["holdout"] + q
    ensures a == b && p == q
  {
    var left, right := a + ["holdout"] + p, b + ["holdout"] + q;
    assert left[|a|] == "holdout" && right[|b|] == "holdout";
    if |a| < |b| {
      assert right[|a|] == b[|a|];
      DigestIsClean(b[|a|]);
    } else if |b| < |a| {
      assert left[|b|] == a[|b|];
      DigestIsClean(a[|b|]);
    } else {
      assert a == left[..|a|] && b == right[..|a|];
      assert p == left[|a| + 1..] && q == right[|a| + 1..];
    }
  }

  lemma IdentityLinesClean(development: seq<string>, holdout: seq<string>)
    requires AllDigests(development) && AllDigests(holdout)
    ensures CleanLines(["development"] + development + ["holdout"] + holdout)
  {
    hide IsDigest;
    var lines := ["development"] + development + ["holdout"] + holdout;
    forall i | 0 <= i < |lines| ensures Free(lines[i], '\n') {
      if 1 <= i < 1 + |development| {
        DigestIsClean(development[i - 1]);
      } else if i >= 2 + |development| {
        DigestIsClean(holdout[i - 2 - |development|]);
      }
    }
  }

  // The identity preimage determines both orders.
  lemma IdentityDecodes(d: seq<string>, h: seq<string>, d2: seq<string>, h2: seq<string>)
    requires AllDigests(d) && AllDigests(h) && AllDigests(d2) && AllDigests(h2)
    requires IdentityText(d, h) == IdentityText(d2, h2)
    ensures d == d2 && h == h2
  {
    hide AllDigests;
    IdentityLinesClean(d, h);
    IdentityLinesClean(d2, h2);
    var a, b := ["development"] + d + ["holdout"] + h, ["development"] + d2 + ["holdout"] + h2;
    LinesDecode(a, b);
    assert d + ["holdout"] + h == a[1..] && d2 + ["holdout"] + h2 == b[1..];
    MarkerSplits(d, d2, h, h2);
  }

  lemma IdentityPinsOrder(lab: Lab, d: seq<string>, h: seq<string>, d2: seq<string>, h2: seq<string>)
    requires AllDigests(d) && AllDigests(h) && AllDigests(d2) && AllDigests(h2)
    requires NoCollision(lab.hash, {IdentityText(d, h), IdentityText(d2, h2)})
    requires SetIdentity(lab, d, h) == SetIdentity(lab, d2, h2)
    ensures d == d2 && h == h2
  {
    hide AllDigests, IdentityText;
    assert IdentityText(d, h) == IdentityText(d2, h2);
    IdentityDecodes(d, h, d2, h2);
  }

  // ---- reordering ---------------------------------------------------------

  // Rows with distinct ids are determined, up to order, by which rows they are.
  lemma SameMembersSameContents(a: seq<Row>, b: seq<Row>)
    requires DistinctRowIds(a) && DistinctRowIds(b)
    requires forall r :: r in a <==> r in b
    ensures multiset(a) == multiset(b)
  {
    forall r ensures multiset(a)[r] == multiset(b)[r] {
      AtMostOnce(a, r);
      AtMostOnce(b, r);
      assert r in a <==> r in multiset(a);
      assert r in b <==> r in multiset(b);
    }
  }

  lemma AtMostOnce(a: seq<Row>, r: Row)
    requires DistinctRowIds(a)
    ensures multiset(a)[r] <= 1
  {
    if multiset(a)[r] >= 2 {
      var p, q := FindCopies(a, r);
    }
  }

  lemma MembersCarry(lab: Lab, a: seq<Task>, b: seq<Task>)
    requires multiset(a) == multiset(b)
    ensures forall r :: r in RowsOf(lab, a) ==> r in RowsOf(lab, b)
  {
    forall r | r in RowsOf(lab, a) ensures r in RowsOf(lab, b) {
      var i :| 0 <= i < |a| && RowsOf(lab, a)[i] == r;
      assert a[i] in multiset(a);
      assert a[i] in multiset(b);
      var k :| 0 <= k < |b| && b[k] == a[i];
      assert RowsOf(lab, b)[k] == r;
    }
  }

  // Permuted tasks have permuted rows.
  lemma RowsPermute(lab: Lab, a: seq<Task>, b: seq<Task>)
    requires multiset(a) == multiset(b) && DistinctRowIds(RowsOf(lab, a))
    ensures multiset(RowsOf(lab, a)) == multiset(RowsOf(lab, b))
  {
    MembersCarry(lab, a, b);
    MembersCarry(lab, b, a);
    forall i, j | 0 <= i < j < |b| ensures RowsOf(lab, b)[i].id != RowsOf(lab, b)[j].id {
      var p, q := TwoPositions(a, b, i, j);
      assert RowsOf(lab, a)[p].id != RowsOf(lab, a)[q].id;
    }
    SameMembersSameContents(RowsOf(lab, a), RowsOf(lab, b));
  }

  // Different arrangements of the same tasks have different digest orders.
  lemma OrdersDiffer(lab: Lab, a: seq<Task>, b: seq<Task>)
    requires ValidBundle(lab, a) && multiset(a) == multiset(b) && OrderOf(lab, a) == OrderOf(lab, b)
    ensures a == b
  {
    hide TaskFault;
    var rows := RowsOf(lab, a);
    forall i | 0 <= i < |a| ensures a[i] == b[i] {
      assert OrderOf(lab, a)[i] == OrderOf(lab, b)[i];
      assert b[i] in multiset(b);
      assert b[i] in multiset(a);
      var k :| 0 <= k < |a| && a[k] == b[i];
      assert rows[k].digest == rows[i].digest;
      assert k == i;
    }
  }

  // The same bundle, or a valid one in another order.
  predicate Reordered(lab: Lab, a: seq<Task>, b: seq<Task>) {
    a == b || (ValidBundle(lab, a) && multiset(a) == multiset(b))
  }

  lemma ReorderedAggregate(lab: Lab, a: seq<Task>, b: seq<Task>)
    requires Reordered(lab, a, b)
    ensures Aggregate(lab, RowsOf(lab, a)) == Aggregate(lab, RowsOf(lab, b))
    ensures OrderOf(lab, a) == OrderOf(lab, b) <==> a == b
  {
    if a != b {
      RowsPermute(lab, a, b);
      SortIsCanonical(RowsOf(lab, a), RowsOf(lab, b));
      if OrderOf(lab, a) == OrderOf(lab, b) {
        OrdersDiffer(lab, a, b);
      }
    }
  }

  // Reordering either stage or both keeps both aggregates and, without a
  // collision, keeps the set identity exactly when neither order changed.
  lemma ReorderingChangesIdentityOnly(lab: Lab, a: seq<Task>, b: seq<Task>, c: seq<Task>, d: seq<Task>)
    requires Faithful(lab) && Reordered(lab, a, b) && Reordered(lab, c, d)
    requires NoCollision(lab.hash, {IdentityText(OrderOf(lab, a), OrderOf(lab, c)),
                                    IdentityText(OrderOf(lab, b), OrderOf(lab, d))})
    ensures Aggregate(lab, RowsOf(lab, a)) == Aggregate(lab, RowsOf(lab, b))
    ensures Aggregate(lab, RowsOf(lab, c)) == Aggregate(lab, RowsOf(lab, d))
    ensures SetIdentityFor(lab, a, c) == SetIdentityFor(lab, b, d) <==> a == b && c == d
  {
    ReorderedAggregate(lab, a, b);
    ReorderedAggregate(lab, c, d);
    hide Reordered, Aggregate, IdentityText, NoCollision;
    if SetIdentityFor(lab, a, c) == SetIdentityFor(lab, b, d) {
      IdentityPinsOrder(lab, OrderOf(lab, a), OrderOf(lab, c), OrderOf(lab, b), OrderOf(lab, d));
    }
  }

  // ---- the controller sources ---------------------------------------------

  // Path, git mode and blob of one controller source; raw is the 32-byte digest.
  datatype Source = Source(path: string, mode: string, blob: string)

  const GIT_REGULAR_MODES := {"100644", "100755"}
  const CONTROLLER_SOURCES: nat := 4

  predicate ValidSource(s: Source) {
    s.mode in GIT_REGULAR_MODES && s.blob != ""
  }

  function SourceText(raw: string -> string, s: Source): string {
    s.path + "\0" + s.mode + "\0" + raw(s.blob) + "\0"
  }

  function SourcesText(raw: string -> string, sources: seq<Source>): string {
    if sources == [] then "" else SourcesText(raw, sources[..|sources| - 1]) + SourceText(raw, sources[|sources| - 1])
  }

  // The hasher is fed source by source and refuses an irregular one.
  method ControllerDigest(lab: Lab, raw: string -> string, sources: seq<Source>) returns (r: Result<string, Reason>)
    ensures r.Ok? <==> |sources| == CONTROLLER_SOURCES && forall i :: 0 <= i < |sources| ==> ValidSource(sources[i])
    ensures r.Ok? ==> r.value == lab.hash(SourcesText(raw, sources))
    ensures r.Err? ==> r.error == ControllerDigestMismatch
  {
    if |sources| != CONTROLLER_SOURCES {
      return Err(ControllerDigestMismatch);
    }
    var fed, i := "", 0;
    while i < |sources|
      invariant 0 <= i <= |sources|
      invariant forall k :: 0 <= k < i ==> ValidSource(sources[k])
      invariant fed == SourcesText(raw, sources[..i])
    {
      var s := sources[i];
      if s.mode !in GIT_REGULAR_MODES || s.blob == "" {
        return Err(ControllerDigestMismatch);
      }
      assert sources[..i + 1][..i] == sources[..i];
      fed := fed + (s.path + "\0" + s.mode + "\0" + raw(s.blob) + "\0");
      i := i + 1;
    }
    assert sources[..i] == sources;
    return Ok(lab.hash(fed));
  }

  predicate CleanSource(s: Source) {
    Free(s.path, '\0') && ValidSource(s)
  }

  predicate CleanSources(sources: seq<Source>) {
    forall i :: 0 <= i < |sources| ==> CleanSource(sources[i])
  }

  ghost predicate RawDigests(raw: string -> string) {
    forall s :: |raw(s)| == 32
  }

  // The same texts fed from the front.
  function FrontText(raw: string -> string, sources: seq<Source>): string {
    if sources == [] then "" else SourceText(raw, sources[0]) + FrontText(raw, sources[1..])
  }

  lemma {:induction false} FrontIsSame(raw: string -> string, sources: seq<Source>)
    ensures FrontText(raw, sources) == SourcesText(raw, sources)
  {
    if sources != [] {
      var n := |sources| - 1;
      FrontIsSame(raw, sources[..n]);
      FrontAppends(raw, sources[..n], sources[n]);
      assert sources == sources[..n] + [sources[n]];
    }
  }

  lemma {:induction false} FrontAppends(raw: string -> string, sources: seq<Source>, s: Source)
    ensures FrontText(raw, sources + [s]) == FrontText(raw, sources) + SourceText(raw, s)
  {
    hide SourceText;
    if sources == [] {
      assert sources + [s] == [s] && [s][1..] == [];
    } else {
      FrontAppends(raw, sources[1..], s);
      assert (sources + [s])[1..] == sources[1..] + [s];
    }
  }

  lemma SourceSplits(raw: string -> string, a: Source, b: Source, p: string, q: string)
    requires CleanSource(a) && CleanSource(b) && RawDigests(raw)
    requires SourceText(raw, a) + p == SourceText(raw, b) + q
    ensures a.path == b.path && a.mode == b.mode && raw(a.blob) == raw(b.blob) && p == q
  {
    var tailA, tailB := raw(a.blob) + "\0" + p, raw(b.blob) + "\0" + q;
    assert SourceText(raw, a) + p == a.path + ['\0'] + (a.mode + ['\0'] + tailA);
    assert SourceText(raw, b) + q == b.path + ['\0'] + (b.mode + ['\0'] + tailB);
    SplitAt(a.path, b.path, '\0', a.mode + ['\0'] + tailA, b.mode + ['\0'] + tailB);
    SplitAt(a.mode, b.mode, '\0', tailA, tailB);
    assert raw(a.blob) == tailA[..32] && raw(b.blob) == tailB[..32];
    assert p == tailA[33..] && q == tailB[33..];
  }

  // The preimage determines paths, modes and blob digests in order: the raw
  // digest may contain NUL bytes, but its length is fixed.
  lemma {:induction false} SourcesDecode(raw: string -> string, a: seq<Source>, b: seq<Source>)
    requires CleanSources(a) && CleanSources(b) && RawDigests(raw)
    requires FrontText(raw, a) == FrontText(raw, b)
    ensures |a| == |b|
    ensures forall i :: 0 <= i < |a| ==>
      a[i].path == b[i].path && a[i].mode == b[i].mode && raw(a[i].blob) == raw(b[i].blob)
  {
    hide SourceText;
    if a != [] && b != [] {
      SourceSplits(raw, a[0], b[0], FrontText(raw, a[1..]), FrontText(raw, b[1..]));
      SourcesDecode(raw, a[1..], b[1..]);
      forall i | 1 <= i < |a|
        ensures a[i].path == b[i].path && a[i].mode == b[i].mode && raw(a[i].blob) == raw(b[i].blob)
      {
        assert a[i] == a[1..][i - 1] && b[i] == b[1..][i - 1];
      }
    } else {
      NonEmptySource(raw, a, b);
    }
  }

  lemma NonEmptySource(raw: string -> string, a: seq<Source>, b: seq<Source>)
    requires FrontText(raw, a) == FrontText(raw, b) && (a == [] || b == [])
    ensures a == b
  {
  }

  // Without collisions equal controller digests mean equal sources.
  lemma ControllerDigestPinsSources(lab: Lab, raw: string -> string, a: seq<Source>, b: seq<Source>)
    requires CleanSources(a) && CleanSources(b) && RawDigests(raw)
    requires lab.hash(SourcesText(raw, a)) == lab.hash(SourcesText(raw, b))
    requires NoCollision(lab.hash, {SourcesText(raw, a), SourcesText(raw, b)})
    requires forall i, j :: 0 <= i < |a| && 0 <= j < |b| && raw(a[i].blob) == raw(b[j].blob) ==> a[i].blob == b[j].blob
    ensures a == b
  {
    FrontIsSame(raw, a);
    FrontIsSame(raw, b);
    hide SourcesText, FrontText;
    SourcesDecode(raw, a, b);
  }
}
