/**
 * The query of app.py line 156, `find().sort("timestamp", -1).limit(20)`,
 * stated by what the database promises: the documents with the largest
 * timestamps, largest first, at most twenty of them.
 */
module Query {
  import Events
  import Documents

  const LIMIT: nat := 20

  /** Lexicographic order on strings, as the database compares strings. */
  predicate TextLe(a: string, b: string) {
    |a| == 0 || (|b| > 0 && (a[0] < b[0] || (a[0] == b[0] && TextLe(a[1..], b[1..]))))
  }

  lemma {:induction false} TextLeTotal(a: string, b: string)
    ensures TextLe(a, b) || TextLe(b, a)
  {
    if |a| > 0 && |b| > 0 && a[0] == b[0] {
      TextLeTotal(a[1..], b[1..]);
    }
  }

  lemma {:induction false} TextLeTransitive(a: string, b: string, c: string)
    requires TextLe(a, b) && TextLe(b, c)
    ensures TextLe(a, c)
  {
    if |a| > 0 && a[0] == b[0] && b[0] == c[0] {
      TextLeTransitive(a[1..], b[1..], c[1..]);
    }
  }

  /** Strings sort below dates; within one kind, by their text. */
  predicate TimestampLe(s: Events.Timestamp, t: Events.Timestamp) {
    match (s, t)
    case (Text(a), Text(b)) => TextLe(a, b)
    case (Instant(a), Instant(b)) => TextLe(a, b)
    case (Text(_), Instant(_)) => true
    case (Instant(_), Text(_)) => false
  }

  predicate Le(d: Documents.Doc, e: Documents.Doc) {
    TimestampLe(d.rec.timestamp, e.rec.timestamp)
  }

  lemma LeTotal(d: Documents.Doc, e: Documents.Doc)
    ensures Le(d, e) || Le(e, d)
  {
    match (d.rec.timestamp, e.rec.timestamp)
    case (Text(a), Text(b)) => TextLeTotal(a, b);
    case (Instant(a), Instant(b)) => TextLeTotal(a, b);
    case (_, _) =>
  }

  lemma LeTransitive(d: Documents.Doc, e: Documents.Doc, f: Documents.Doc)
    requires Le(d, e) && Le(e, f)
    ensures Le(d, f)
  {
    match (d.rec.timestamp, e.rec.timestamp, f.rec.timestamp)
    case (Text(a), Text(b), Text(c)) => TextLeTransitive(a, b, c);
    case (Instant(a), Instant(b), Instant(c)) => TextLeTransitive(a, b, c);
    case (_, _, _) =>
  }

  /** Newest first: no document has a smaller timestamp than one after it. */
  predicate NewestFirst(s: seq<Documents.Doc>) {
    forall i, j :: 0 <= i < j < |s| ==> Le(s[j], s[i])
  }

  /** Place `d` in front of the first document it is not older than. */
  function Insert(d: Documents.Doc, s: seq<Documents.Doc>): (r: seq<Documents.Doc>)
    requires NewestFirst(s)
    ensures NewestFirst(r)
    ensures multiset(r) == multiset(s) + multiset{d}
  {
    if s == [] then [d]
    else if Le(s[0], d) then
      InsertHead(d, s);
      [d] + s
    else
      LeTotal(s[0], d);
      var t := Insert(d, s[1..]);
      assert s == [s[0]] + s[1..];
      forall k | 0 <= k < |t| ensures Le(t[k], s[0]) {
        assert t[k] in multiset(t);
        if t[k] != d {
          assert t[k] in multiset(s[1..]);
          var j :| 0 <= j < |s[1..]| && s[1..][j] == t[k];
          assert s[j + 1] == t[k];
        }
      }
      InsertBelow(s[0], t);
      [s[0]] + t
  }

  lemma InsertHead(d: Documents.Doc, s: seq<Documents.Doc>)
    requires NewestFirst(s) && |s| > 0 && Le(s[0], d)
    ensures NewestFirst([d] + s)
  {
    var r := [d] + s;
    forall i, j | 0 <= i < j < |r| ensures Le(r[j], r[i]) {
      if i == 0 && j > 1 {
        LeTransitive(r[j], s[0], d);
      }
    }
  }

  lemma InsertBelow(top: Documents.Doc, t: seq<Documents.Doc>)
    requires NewestFirst(t)
    requires forall k :: 0 <= k < |t| ==> Le(t[k], top)
    ensures NewestFirst([top] + t)
  {
  }

  /** The whole collection, newest first. */
  function SortNewestFirst(s: seq<Documents.Doc>): (r: seq<Documents.Doc>)
    ensures NewestFirst(r)
    ensures multiset(r) == multiset(s)
  {
    if s == [] then []
    else
      assert s == [s[0]] + s[1..];
      Insert(s[0], SortNewestFirst(s[1..]))
  }

  function Min(a: nat, b: nat): nat {
    if a <= b then a else b
  }

  /**
   * What the database promises of the query's result `r`: the newest `LIMIT`
   * documents of the collection, newest first; every document left out is no
   * newer than every one returned. The order among equal timestamps is not
   * fixed.
   */
  predicate IsNewest(store: seq<Documents.Doc>, r: seq<Documents.Doc>) {
    && |r| == Min(|store|, LIMIT)
    && NewestFirst(r)
    && multiset(r) <= multiset(store)
    && forall d, e :: d in multiset(store) - multiset(r) && e in r ==> Le(d, e)
  }

  /** One result the query may return: a sort followed by the limit. */
  function Latest(store: seq<Documents.Doc>): (r: seq<Documents.Doc>)
    ensures IsNewest(store, r)
  {
    var sorted := SortNewestFirst(store);
    var n := Min(|sorted|, LIMIT);
    TopOfNewestFirst(sorted, n);
    sorted[..n]
  }

  /** The first `n` documents of a newest-first sequence are its newest ones. */
  lemma TopOfNewestFirst(s: seq<Documents.Doc>, n: nat)
    requires NewestFirst(s) && n <= |s|
    ensures NewestFirst(s[..n])
    ensures multiset(s) - multiset(s[..n]) == multiset(s[n..])
    ensures forall d, e :: d in multiset(s[n..]) && e in s[..n] ==> Le(d, e)
  {
    assert s == s[..n] + s[n..];
    forall d, e | d in multiset(s[n..]) && e in s[..n] ensures Le(d, e) {
      var j :| 0 <= j < |s[n..]| && s[n..][j] == d;
      var i :| 0 <= i < n && s[..n][i] == e;
      assert s[n + j] == d && s[i] == e;
    }
  }

  /**
   * Three documents written with strictly increasing timestamps are read
   * back newest first, whatever result the query picks.
   */
  lemma ThreeNewestFirst(a: Documents.Doc, b: Documents.Doc, c: Documents.Doc, r: seq<Documents.Doc>)
    requires Le(a, b) && !Le(b, a)
    requires Le(b, c) && !Le(c, b)
    requires IsNewest([a, b, c], r)
    ensures r == [c, b, a]
  {
    LeTransitive(a, b, c);
    if Le(c, a) {
      LeTransitive(c, a, b);
    }
    var all := multiset{a, b, c};
    assert multiset(r) <= all && |multiset(r)| == 3 && |all| == 3;
    assert all == multiset(r) + (all - multiset(r));
    assert |all - multiset(r)| == 0;
    assert multiset(r) == all;
    assert r[0] in multiset(r) && r[1] in multiset(r) && r[2] in multiset(r);
    assert a in multiset(r) && b in multiset(r) && c in multiset(r);
  }
}
