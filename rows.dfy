// The users table as a value: a map from primary key to row. These are the
// facts about the email lookup that do not depend on how the DAO is called.

module Rows {
  import opened Entity
  import opened Text

  /** Every row is stored under its own id. */
  ghost predicate Keyed(rows: map<int, User>) {
    forall k :: k in rows ==> rows[k].id == Some(k)
  }

  /**
   * The keys of the rows that `FROM User WHERE email = :email` selects when the
   * parameter is the normalised query: the stored email is compared as it is.
   */
  function EmailMatches(rows: map<int, User>, query: string): (r: set<int>)
    ensures r <= rows.Keys
    ensures forall k :: k in r ==> Canonical(rows[k].email)
  {
    NormalizeIsCanonical(query);
    set k | k in rows && rows[k].email == Normalize(query)
  }

  /** Whether the row under key `k` passes the filter: every row, or those with the given email. */
  predicate Selected(rows: map<int, User>, filter: Option<string>, k: int) {
    k in rows && (filter.None? || rows[k].email == filter.value)
  }

  /**
   * The state of a scan over the keys below `bound`: `seen` holds the selected
   * keys met so far and `acc` their rows, each once.
   */
  ghost predicate ScannedBelow(rows: map<int, User>, filter: Option<string>, bound: int,
                               acc: seq<User>, seen: set<int>)
  {
    && (forall k :: k in seen <==> Selected(rows, filter, k) && k < bound)
    && |acc| == |seen|
    && (forall i :: 0 <= i < |acc| ==>
          acc[i].id.Some? && acc[i].id.value in seen && acc[i].id.value in rows && rows[acc[i].id.value] == acc[i])
    && (forall k :: k in seen ==> k in rows && rows[k] in acc)
    && (forall i, j :: 0 <= i < j < |acc| ==> acc[i] != acc[j])
  }

  /** Visiting a selected key `bound` appends its row to the scan. */
  lemma ScanTake(rows: map<int, User>, filter: Option<string>, bound: int, acc: seq<User>, seen: set<int>)
    requires Keyed(rows) && ScannedBelow(rows, filter, bound, acc, seen)
    requires Selected(rows, filter, bound)
    ensures ScannedBelow(rows, filter, bound + 1, acc + [rows[bound]], seen + {bound})
  {
    var acc', seen' := acc + [rows[bound]], seen + {bound};
    assert bound !in seen;
    assert |seen'| == |seen| + 1;
    assert forall i :: 0 <= i < |acc| ==> acc[i].id.value < bound;
    assert forall i :: 0 <= i < |acc| ==> acc'[i] == acc[i];
    assert acc'[|acc|] == rows[bound];
    assert forall i :: 0 <= i < |acc| ==> acc'[i] != acc'[|acc|];
  }

  /** A scan past every key has met each selected row exactly once. */
  lemma ScanComplete(rows: map<int, User>, filter: Option<string>, bound: int, acc: seq<User>, seen: set<int>)
    requires ScannedBelow(rows, filter, bound, acc, seen)
    requires forall k :: k in rows ==> k < bound
    ensures forall k :: k in seen <==> Selected(rows, filter, k)
    ensures forall u :: u in acc <==> exists k :: Selected(rows, filter, k) && rows[k] == u
  {
    forall u | u in acc ensures exists k :: Selected(rows, filter, k) && rows[k] == u {
      var i :| 0 <= i < |acc| && acc[i] == u;
      assert Selected(rows, filter, acc[i].id.value);
    }
  }

  /**
   * The rows under the keys `1 <= k < bound` that pass the filter, in key order:
   * the result list of the table query, ordered by primary key.
   */
  function SelectBelow(rows: map<int, User>, filter: Option<string>, bound: int): (r: seq<User>)
    ensures |r| <= if bound <= 1 then 0 else bound - 1
    ensures forall i :: 0 <= i < |r| ==> r[i] in rows.Values && (filter.None? || r[i].email == filter.value)
    decreases bound
  {
    if bound <= 1 then []
    else SelectBelow(rows, filter, bound - 1)
         + (if Selected(rows, filter, bound - 1) then [rows[bound - 1]] else [])
  }

  /** The query result is a complete scan of the keys below `bound`; `seen` is the set of keys it took. */
  lemma {:induction false} SelectBelowScans(rows: map<int, User>, filter: Option<string>, bound: int)
    returns (seen: set<int>)
    requires Keyed(rows) && (forall k :: k in rows ==> 1 <= k)
    ensures ScannedBelow(rows, filter, bound, SelectBelow(rows, filter, bound), seen)
    decreases bound
  {
    if bound <= 1 {
      seen := {};
    } else {
      var before := SelectBelowScans(rows, filter, bound - 1);
      var prefix := SelectBelow(rows, filter, bound - 1);
      if Selected(rows, filter, bound - 1) {
        assert SelectBelow(rows, filter, bound) == prefix + [rows[bound - 1]];
        ScanTake(rows, filter, bound - 1, prefix, before);
        seen := before + {bound - 1};
      } else {
        assert SelectBelow(rows, filter, bound) == prefix;
        seen := before;
      }
    }
  }

  /** The store-level unique constraint on the email column, when it is assumed. */
  ghost predicate EmailsUnique(rows: map<int, User>) {
    forall j, k :: j in rows && k in rows && rows[j].email == rows[k].email ==> j == k
  }

  /** Under the unique constraint a row that matches is the only one that matches. */
  lemma UniqueEmailsMatchAtMostOne(rows: map<int, User>, query: string, k: int)
    requires EmailsUnique(rows) && k in EmailMatches(rows, query)
    ensures EmailMatches(rows, query) == {k}
  {
    forall j | j in EmailMatches(rows, query) ensures j == k {
      assert rows[j].email == rows[k].email;
    }
  }

  /**
   * Only the query is normalised: a row whose stored email has blanks at an end
   * or an upper-case ASCII letter is found by no query at all.
   */
  lemma NonCanonicalNeverMatches(rows: map<int, User>, query: string, k: int)
    requires k in rows && !Canonical(rows[k].email)
    ensures k !in EmailMatches(rows, query)
  {
    NormalizeIsCanonical(query);
  }

  /**
   * A row whose stored email `e` is canonical is found by `e` padded with blanks
   * on either side and with any ASCII letters of `e` in upper case.
   */
  lemma CanonicalMatchesPaddedVariant(rows: map<int, User>, k: int, p: string, v: string, q: string)
    requires k in rows && Canonical(rows[k].email)
    requires AllBlank(p) && AllBlank(q) && Lower(v) == rows[k].email
    ensures k in EmailMatches(rows, p + v + q)
  {
    PaddedVariantNormalizes(p, v, q, rows[k].email);
  }
}
