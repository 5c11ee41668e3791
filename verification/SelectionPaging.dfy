/** Pages over the append-only selection ledger, newest first, linked by cursors. */
module SelectionPaging {
  import opened Domain
  import opened SelectionCursor

  datatype Row = Row(sequence: nat, content: nat)

  /** The counter gives consecutive sequences from 1; rows are never changed or removed. */
  predicate Sequenced(ledger: seq<Row>) {
    forall i :: 0 <= i < |ledger| ==> ledger[i].sequence == i + 1
  }

  /** The eligible rows below a bound, newest first. */
  function Eligible(ledger: seq<Row>, allowed: Row -> bool, bound: nat): seq<Row>
    decreases |ledger|
  {
    if ledger == [] then []
    else
      var last := ledger[|ledger| - 1];
      (if last.sequence < bound && allowed(last) then [last] else []) + Eligible(ledger[..|ledger| - 1], allowed, bound)
  }

  function Take(rows: seq<Row>, n: nat): seq<Row> {
    if |rows| <= n then rows else rows[..n]
  }

  datatype Page = Page(rows: seq<Row>, next: Option<string>) | BadCursor

  function Bound(ledger: seq<Row>, decoded: Decoded): nat {
    if decoded.Before? then decoded.sequence else |ledger| + 1
  }

  /** The rows of one page and, if more follow, the sequence of its last row. One row more than asked for is read to
      learn that. */
  function ReadRows(ledger: seq<Row>, allowed: Row -> bool, bound: nat, limit: nat): (seq<Row>, Option<nat>) {
    var records := Take(Eligible(ledger, allowed, bound), limit + 1);
    var visible := Take(records, limit);
    (visible, if |records| > limit && visible != [] then Some(visible[|visible| - 1].sequence) else None)
  }

  /** How sequences become cursors and back. */
  datatype Codec = Codec(encode: nat -> string, decode: Option<string> -> Decoded)

  const CURSORS := Codec(Encode, Decode)

  /** Decoding undoes encoding, and an absent cursor means the start. */
  ghost predicate Faithful(codec: Codec) {
    && codec.decode(None) == Start
    && forall n: nat :: n >= 1 ==> codec.decode(Some(codec.encode(n))) == Before(n)
  }

  lemma CursorsAreFaithful()
    ensures Faithful(CURSORS)
  {
    forall n: nat | n >= 1 ensures CURSORS.decode(Some(CURSORS.encode(n))) == Before(n) { DecodeUndoesEncode(n); }
  }

  function ReadPage(codec: Codec, ledger: seq<Row>, allowed: Row -> bool, cursor: Option<string>, limit: nat): Page {
    var decoded := codec.decode(cursor);
    if decoded.InvalidCursor? then BadCursor
    else
      var (visible, last) := ReadRows(ledger, allowed, Bound(ledger, decoded), limit);
      Page(visible, if last.Some? then Some(codec.encode(last.value)) else None)
  }

  // ---------------------------------------------------------------- the descending listing

  predicate Descending(rows: seq<Row>) {
    forall i, j :: 0 <= i < j < |rows| ==> rows[i].sequence > rows[j].sequence
  }

  /** The listing is exactly the eligible rows below the bound, each once, newest first. */
  lemma {:induction false} EligibleIsExact(ledger: seq<Row>, allowed: Row -> bool, bound: nat)
    requires Sequenced(ledger)
    ensures forall r :: r in Eligible(ledger, allowed, bound) <==> r in ledger && r.sequence < bound && allowed(r)
    ensures Descending(Eligible(ledger, allowed, bound))
    decreases |ledger|
  {
    if ledger != [] {
      var init, last := ledger[..|ledger| - 1], ledger[|ledger| - 1];
      EligibleIsExact(init, allowed, bound);
      assert ledger == init + [last];
      assert forall r :: r in init ==> r.sequence <= |init|;
    }
  }

  /** Rows appended later do not show below an earlier bound. */
  lemma {:induction false} EligibleIsStable(earlier: seq<Row>, later: seq<Row>, allowed: Row -> bool, bound: nat)
    requires Sequenced(later) && earlier <= later && bound <= |earlier| + 1
    ensures Eligible(later, allowed, bound) == Eligible(earlier, allowed, bound)
    decreases |later|
  {
    if |later| > |earlier| {
      assert later[|later| - 1].sequence >= bound;
      EligibleIsStable(earlier, later[..|later| - 1], allowed, bound);
    } else {
      assert later == earlier;
    }
  }

  lemma {:induction false} DescendingIsUnique(a: seq<Row>, b: seq<Row>)
    requires Descending(a) && Descending(b) && forall r :: r in a <==> r in b
    ensures a == b
    decreases |a|
  {
    assert |b| > 0 ==> b[0] in b;
    if a != [] {
      assert a[0] in b && b != [] && b[0] in a;
      var i :| 0 <= i < |b| && b[i] == a[0];
      var j :| 0 <= j < |a| && a[j] == b[0];
      assert a[0] == b[0];
      forall r ensures r in a[1..] <==> r in b[1..] {
        BelowIsAfter(a, 0, r);
        BelowIsAfter(b, 0, r);
      }
      DescendingIsUnique(a[1..], b[1..]);
      assert a == [a[0]] + a[1..] && b == [b[0]] + b[1..];
    }
  }

  lemma BelowIsAfter(rows: seq<Row>, k: nat, r: Row)
    requires Descending(rows) && k < |rows|
    ensures r in rows[k + 1..] <==> r in rows && r.sequence < rows[k].sequence
  {
    if r in rows && r.sequence < rows[k].sequence {
      var i :| 0 <= i < |rows| && rows[i] == r;
      assert rows[k + 1..][i - k - 1] == r;
    }
  }

  /** Listing below the k-th row is the listing without its first k + 1 rows. */
  lemma EligibleContinues(ledger: seq<Row>, allowed: Row -> bool, bound: nat, k: nat)
    requires Sequenced(ledger) && k < |Eligible(ledger, allowed, bound)|
    ensures var rows := Eligible(ledger, allowed, bound); Eligible(ledger, allowed, rows[k].sequence) == rows[k + 1..]
  {
    var rows := Eligible(ledger, allowed, bound);
    EligibleIsExact(ledger, allowed, bound);
    EligibleIsExact(ledger, allowed, rows[k].sequence);
    assert rows[k] in rows;
    forall r ensures r in Eligible(ledger, allowed, rows[k].sequence) <==> r in rows[k + 1..] {
      BelowIsAfter(rows, k, r);
    }
    DescendingIsUnique(Eligible(ledger, allowed, rows[k].sequence), rows[k + 1..]);
  }

  // ---------------------------------------------------------------- one page

  /** The rows of a page are the front of the listing; the last sequence, if given, bounds exactly the rest. */
  lemma RowsSplit(ledger: seq<Row>, allowed: Row -> bool, bound: nat, limit: nat)
    requires Sequenced(ledger) && limit >= 1
    ensures var rows := Eligible(ledger, allowed, bound);
            var (visible, last) := ReadRows(ledger, allowed, bound, limit);
            && visible == Take(rows, limit)
            && (last.None? <==> |rows| <= limit)
            && (last.Some? ==> 1 <= last.value <= |ledger| && Eligible(ledger, allowed, last.value) == rows[limit..])
  {
    var rows := Eligible(ledger, allowed, bound);
    TakeTwice(rows, limit);
    if |rows| > limit {
      EligibleInLedger(ledger, allowed, bound, limit - 1);
      EligibleContinues(ledger, allowed, bound, limit - 1);
    }
  }

  lemma TakeTwice(rows: seq<Row>, limit: nat)
    ensures Take(Take(rows, limit + 1), limit) == Take(rows, limit)
    ensures |Take(rows, limit + 1)| > limit <==> |rows| > limit
  {
  }

  lemma EligibleInLedger(ledger: seq<Row>, allowed: Row -> bool, bound: nat, k: nat)
    requires Sequenced(ledger) && k < |Eligible(ledger, allowed, bound)|
    ensures 1 <= Eligible(ledger, allowed, bound)[k].sequence <= |ledger|
  {
    EligibleIsExact(ledger, allowed, bound);
    var r := Eligible(ledger, allowed, bound)[k];
    assert r in Eligible(ledger, allowed, bound);
    var i :| 0 <= i < |ledger| && ledger[i] == r;
  }

  /** A page is the front of the listing; its cursor, if any, decodes to the bound of exactly the rest. */
  lemma PageSplits(codec: Codec, ledger: seq<Row>, allowed: Row -> bool, cursor: Option<string>, limit: nat)
    requires Faithful(codec) && Sequenced(ledger) && limit >= 1 && !codec.decode(cursor).InvalidCursor?
    ensures var rows := Eligible(ledger, allowed, Bound(ledger, codec.decode(cursor)));
            var page := ReadPage(codec, ledger, allowed, cursor, limit);
            && page.Page? && page.rows == Take(rows, limit)
            && (page.next.None? <==> |rows| <= limit)
            && (page.next.Some? ==>
                  && codec.decode(page.next).Before? && codec.decode(page.next).sequence <= |ledger|
                  && Eligible(ledger, allowed, codec.decode(page.next).sequence) == rows[limit..])
  {
    RowsSplit(ledger, allowed, Bound(ledger, codec.decode(cursor)), limit);
  }

  // ---------------------------------------------------------------- following cursors

  /** Later versions of the ledger only append. */
  ghost predicate OnlyAppends(versions: seq<seq<Row>>) {
    && (forall i :: 0 <= i < |versions| ==> Sequenced(versions[i]))
    && (forall i, j :: 0 <= i <= j < |versions| ==> versions[i] <= versions[j])
  }

  function FirstListing(versions: seq<seq<Row>>, allowed: Row -> bool): seq<Row>
    requires versions != []
  {
    Eligible(versions[0], allowed, |versions[0]| + 1)
  }

  /** A client that follows next cursors, page `k` read from version `k` of the ledger. It ends, and has then listed
      every eligible row of the first version exactly once, newest first, and nothing appended since. */
  method FollowCursors(versions: seq<seq<Row>>, allowed: Row -> bool, limit: nat) returns (rows: seq<Row>, pages: nat)
    requires versions != [] && OnlyAppends(versions) && limit >= 1
    requires |versions| > |FirstListing(versions, allowed)|
    ensures 1 <= pages <= |versions|
    ensures (forall r :: r in rows <==> r in versions[0] && allowed(r)) && Descending(rows)
  {
    CursorsAreFaithful();
    EligibleIsExact(versions[0], allowed, |versions[0]| + 1);
    InLedgerBelow(versions[0]);
    rows, pages := Follow(CURSORS, versions, allowed, limit);
  }

  method Follow(codec: Codec, versions: seq<seq<Row>>, allowed: Row -> bool, limit: nat)
      returns (rows: seq<Row>, pages: nat)
    requires Faithful(codec) && versions != [] && OnlyAppends(versions) && limit >= 1
    requires |versions| > |FirstListing(versions, allowed)|
    ensures 1 <= pages <= |versions| && rows == FirstListing(versions, allowed)
  {
    ghost var all := FirstListing(versions, allowed);
    var cursor: Option<string> := None;
    rows, pages := [], 0;
    ghost var rest := all;
    while true
      invariant pages < |versions| && pages <= |rows| && rows + rest == all
      invariant !codec.decode(cursor).InvalidCursor?
      invariant Eligible(versions[pages], allowed, Bound(versions[pages], codec.decode(cursor))) == rest
      decreases |rest|
    {
      var page := ReadPage(codec, versions[pages], allowed, cursor, limit);
      PageSplits(codec, versions[pages], allowed, cursor, limit);
      rows := rows + page.rows;
      pages := pages + 1;
      if page.next.None? { return; }
      cursor := page.next;
      assert rest == page.rows + rest[limit..];
      rest := rest[limit..];
      assert rows + rest == all;
      NextVersion(versions, allowed, pages - 1, codec.decode(cursor).sequence);
    }
  }

  lemma NextVersion(versions: seq<seq<Row>>, allowed: Row -> bool, k: nat, bound: nat)
    requires OnlyAppends(versions) && k + 1 < |versions| && bound <= |versions[k]|
    ensures Eligible(versions[k + 1], allowed, bound) == Eligible(versions[k], allowed, bound)
  {
    EligibleIsStable(versions[k], versions[k + 1], allowed, bound);
  }

  lemma InLedgerBelow(ledger: seq<Row>)
    requires Sequenced(ledger)
    ensures forall r :: r in ledger ==> r.sequence < |ledger| + 1
  {
  }
}
