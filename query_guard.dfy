/** The statement-kind guard and LIMIT rewrite of `execute_query`. */
module QueryGuard {
  import opened Text

  const DefaultLimit: int := 100

  /** The text the guard inspects: upper-cased, then trimmed. */
  function Normalized(query: string): (n: string)
    ensures |n| <= |query|
    ensures |n| > 0 ==> !IsSpace(n[0]) && !IsSpace(n[|n| - 1])
  {
    var upper := ToUpper(query);
    TrimLeftMeaning(upper);
    TrimRightMeaning(TrimLeft(upper));
    TrimSpace(upper)
  }

  /** A bare prefix test, with no word boundary after the keyword. */
  predicate IsReadOnlyStatement(query: string) {
    var n := Normalized(query);
    HasPrefix(n, "SELECT") || HasPrefix(n, "SHOW") || HasPrefix(n, "DESCRIBE") || HasPrefix(n, "EXPLAIN")
  }

  /** The statement actually sent: " LIMIT <limit>" is appended to the caller's own
      text when the normalised text starts with SELECT and nowhere contains LIMIT. */
  function WithLimit(query: string, limit: int): (r: string)
    ensures HasPrefix(r, query)
  {
    var n := Normalized(query);
    if HasPrefix(n, "SELECT") && !Contains(n, "LIMIT") then query + " LIMIT " + Decimal(limit)
    else query
  }

  /** The word LIMIT in any ASCII casing. */
  predicate MentionsLimit(query: string) {
    Contains(ToUpper(query), "LIMIT")
  }

  /** The rewrite appends exactly " LIMIT <limit>" to a SELECT that mentions LIMIT in
      no casing, and leaves every other statement as it is, whatever the limit. */
  lemma WithLimitAppendsExactly(query: string, limit: int)
    ensures HasPrefix(Normalized(query), "SELECT") && !MentionsLimit(query) ==>
              WithLimit(query, limit) == query + " LIMIT " + Decimal(limit)
    ensures !(HasPrefix(Normalized(query), "SELECT") && !MentionsLimit(query)) ==>
              WithLimit(query, limit) == query
  {
    ContainsTrimSpace(ToUpper(query), "LIMIT");
  }

  /** Rewriting an already rewritten statement changes nothing, even with another limit. */
  lemma WithLimitIdempotent(query: string, limit: int, again: int)
    ensures WithLimit(WithLimit(query, limit), again) == WithLimit(query, limit)
  {
    var once := WithLimit(query, limit);
    if once != query {
      var tail := " LIMIT " + Decimal(limit);
      assert once == query + tail;
      assert tail[..7] == " LIMIT ";
      AppendedLimitIsSeen(query, tail);
    }
  }

  /** Whatever precedes it, an appended " LIMIT ..." is found by the rewrite's test. */
  lemma AppendedLimitIsSeen(query: string, tail: string)
    requires HasPrefix(tail, " LIMIT ")
    ensures Contains(Normalized(query + tail), "LIMIT")
  {
    ToUpperAppend(query, tail);
    var upper := ToUpper(query + tail);
    LimitTailSpellsLimit(tail);
    assert upper[|query| + 1..|query| + 6] == ToUpper(tail)[1..6];
    assert OccursAt(upper, "LIMIT", |query| + 1);
    ContainsTrimSpace(upper, "LIMIT");
  }

  lemma {:induction false} LimitTailSpellsLimit(tail: string)
    requires HasPrefix(tail, " LIMIT ")
    ensures |tail| >= 7 && ToUpper(tail)[1..6] == "LIMIT"
  {
    assert tail[1..6] == tail[..7][1..6];
    assert " LIMIT "[1..6] == "LIMIT";
  }

  /** Text appended after a statement never changes the keyword it starts with. */
  lemma {:induction false} NormalizedKeepsPrefix(query: string, tail: string, keyword: string)
    requires |keyword| > 0 && NoSpace(keyword) && HasPrefix(Normalized(query), keyword)
    ensures HasPrefix(Normalized(query + tail), keyword)
  {
    var u, t := ToUpper(query), ToUpper(tail);
    ToUpperAppend(query, tail);
    var left := TrimLeft(u);
    var n := TrimRight(left);
    assert HasPrefix(left, keyword) by {
      assert left[..|keyword|] == n[..|keyword|];
    }
    TrimLeftAppend(u, t);
    assert HasPrefix(left + t, keyword) by {
      assert (left + t)[..|keyword|] == left[..|keyword|];
    }
    TrimRightKeepsPrefix(left + t, keyword);
  }

  /** The LIMIT rewrite never turns an accepted statement into a rejected one, nor
      the other way round: what is sent passes the same guard as what was asked. */
  lemma {:induction false} WithLimitKeepsGuard(query: string, limit: int)
    ensures IsReadOnlyStatement(WithLimit(query, limit)) <==> IsReadOnlyStatement(query)
  {
    if WithLimit(query, limit) != query {
      LimitedSelectStaysSelect(query, limit);
    }
  }

  lemma {:induction false} LimitedSelectStaysSelect(query: string, limit: int)
    requires WithLimit(query, limit) != query
    ensures HasPrefix(Normalized(query), "SELECT")
    ensures HasPrefix(Normalized(WithLimit(query, limit)), "SELECT")
  {
    var tail := " LIMIT " + Decimal(limit);
    assert WithLimit(query, limit) == query + tail;
    SelectKeptAfterAppend(query, tail);
  }

  lemma {:induction false} SelectKeptAfterAppend(query: string, tail: string)
    requires HasPrefix(Normalized(query), "SELECT")
    ensures HasPrefix(Normalized(query + tail), "SELECT")
  {
    assert NoSpace("SELECT");
    NormalizedKeepsPrefix(query, tail, "SELECT");
  }

  /** The guard is blind to ASCII case. */
  lemma GuardIgnoresCase(query: string)
    ensures IsReadOnlyStatement(ToLower(query)) == IsReadOnlyStatement(query)
    ensures IsReadOnlyStatement(ToUpper(query)) == IsReadOnlyStatement(query)
  {
    CaseFoldings(query);
    ToUpperIdempotent(query);
  }

  /** Leading white space before the statement does not matter to the guard. */
  lemma GuardIgnoresLeadingSpace(space: string, query: string)
    requires forall i :: 0 <= i < |space| ==> IsSpace(space[i])
    ensures IsReadOnlyStatement(space + query) == IsReadOnlyStatement(query)
  {
    NormalizedIgnoresLeadingSpace(space, query);
  }

  lemma {:induction false} NormalizedIgnoresLeadingSpace(space: string, query: string)
    requires forall i :: 0 <= i < |space| ==> IsSpace(space[i])
    ensures Normalized(space + query) == Normalized(query)
  {
    ToUpperAppend(space, query);
    var blank := ToUpper(space);
    assert forall i :: 0 <= i < |blank| ==> IsSpace(blank[i]) by {
      forall i | 0 <= i < |blank| ensures IsSpace(blank[i]) {
        assert blank[i] == UpperChar(space[i]) == space[i];
      }
    }
    TrimSpaceAfterBlank(blank, ToUpper(query));
  }

  /** Only the first keyword is looked at: any text at all may follow it, including
      more letters ("SELECTX") or further statements. */
  lemma GuardIsPrefixOnly(keyword: string, rest: string)
    requires keyword in ["SELECT", "SHOW", "DESCRIBE", "EXPLAIN"]
    ensures IsReadOnlyStatement(keyword + rest)
  {
    ToUpperAppend(keyword, rest);
    var upper := ToUpper(keyword + rest);
    assert upper[..|keyword|] == keyword;
    TrimSpaceKeepsPrefix(upper, keyword);
  }
}
