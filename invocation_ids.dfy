/** The invocation-ID helpers of `client.py` (repeated unchanged in
    `server.py`): a thread id and a run id travel to the caller as one string
    joined by `"::"`, and are recovered by `str.split("::")`. */
module InvocationIds {
  import opened PyStrings

  const Separator: string := "::"

  /** The outcome of `_parse_invocation_id`: both ids, or the `ValueError`
      message. */
  datatype Parsed = Ids(threadId: string, runId: string) | Invalid(message: string)

  /** `_make_invocation_id`. */
  function MakeInvocationId(threadId: string, runId: string): string {
    threadId + Separator + runId
  }

  function InvalidMessage(invocationId: string): string {
    "Invalid invocation ID '" + invocationId + "'. Expected format: '<thread_id>::<run_id>'."
  }

  /** `_parse_invocation_id`: exactly two pieces are accepted; anything else
      is a `ValueError`. */
  function ParseInvocationId(invocationId: string): (r: Parsed)
    ensures r.Ids? <==> |Split(invocationId, Separator)| == 2
    ensures r.Ids? ==> invocationId == MakeInvocationId(r.threadId, r.runId)
    ensures r.Ids? ==> NoOccurrence(r.threadId, Separator) && NoOccurrence(r.runId, Separator)
    ensures r.Invalid? ==> r.message == InvalidMessage(invocationId)
  {
    var parts := Split(invocationId, Separator);
    SplitJoin(invocationId, Separator);
    if |parts| != 2 then Invalid(InvalidMessage(invocationId))
    else
      assert Join(Separator, parts) == parts[0] + Separator + parts[1];
      Ids(parts[0], parts[1])
  }

  /** A `"::"` in `a + ":"` means `a` holds `"::"` or ends with `':'`. */
  predicate CleanThreadId(a: string) {
    NoOccurrence(a + ":", Separator)
  }

  lemma SeparatorAt(s: string, j: int)
    ensures OccursAt(s, Separator, j) <==> 0 <= j && j + 2 <= |s| && s[j] == ':' && s[j + 1] == ':'
  {
    if 0 <= j && j + 2 <= |s| {
      assert s[j..j + 2][0] == s[j] && s[j..j + 2][1] == s[j + 1];
      if s[j] == ':' && s[j + 1] == ':' {
        assert s[j..j + 2] == Separator;
      }
    }
  }

  /** Parsing yields `(a, b)` exactly when the id is `a + "::" + b`, `b` has
      no `"::"`, and `a` has no `"::"` and does not end in `':'` (otherwise
      the leftmost `"::"` would start inside `a`). */
  lemma ParseExactly(s: string, a: string, b: string)
    ensures ParseInvocationId(s) == Ids(a, b)
        <==> s == MakeInvocationId(a, b) && CleanThreadId(a) && NoOccurrence(b, Separator)
  {
    if s == MakeInvocationId(a, b) {
      var i := |a|;
      assert OccursAt(s, Separator, i) by { assert s[i..i + 2] == Separator; }
      if CleanThreadId(a) && NoOccurrence(b, Separator) {
        forall j | 0 <= j < i ensures !OccursAt(s, Separator, j) {
          if j + 2 <= |a| + 1 {
            assert !OccursAt(a + ":", Separator, j);
            assert (a + ":")[j..j + 2] == s[j..j + 2];
          }
        }
        assert Find(s, Separator) == Some(i);
        assert s[i + 2..] == b;
        SplitNoOccurrence(b, Separator);
        assert s[..i] == a;
        assert Split(s, Separator) == [a, b];
      } else if ParseInvocationId(s) == Ids(a, b) {
        var parts := Split(s, Separator);
        match Find(s, Separator)
        case None =>
        case Some(k) =>
          assert parts[0] == s[..k];
          assert k == |a| by { assert |s[..k]| == |a|; }
          if !CleanThreadId(a) {
            var j :| 0 <= j < |a + ":"| && OccursAt(a + ":", Separator, j);
            SeparatorAt(a + ":", j);
            assert s[..|a| + 1] == a + ":";
            assert s[j..j + 2] == (a + ":")[j..j + 2];
            assert OccursAt(s, Separator, j);
          }
      }
    }
  }

  /** Ids free of `':'` survive the round trip. */
  lemma RoundTrip(a: string, b: string)
    requires NoChar(a, ':') && NoChar(b, ':')
    ensures ParseInvocationId(MakeInvocationId(a, b)) == Ids(a, b)
  {
    forall j | 0 <= j < |a + ":"| ensures !OccursAt(a + ":", Separator, j) {
      SeparatorAt(a + ":", j);
      if j < |a| { assert (a + ":")[j] == a[j]; }
    }
    forall j | 0 <= j < |b| ensures !OccursAt(b, Separator, j) {
      SeparatorAt(b, j);
    }
    ParseExactly(MakeInvocationId(a, b), a, b);
  }

  /** A thread id ending in `':'` does not survive: `("x:", "y")` builds
      `"x:::y"`, which parses as `("x", ":y")`. */
  lemma TrailingColonBreaksRoundTrip()
    ensures MakeInvocationId("x:", "y") == "x:::y"
    ensures ParseInvocationId("x:::y") == Ids("x", ":y")
  {
    var s := "x:::y";
    assert s == MakeInvocationId("x", ":y");
    forall j | 0 <= j < |"x" + ":"| ensures !OccursAt("x" + ":", Separator, j) {
      SeparatorAt("x" + ":", j);
    }
    forall j | 0 <= j < |":y"| ensures !OccursAt(":y", Separator, j) {
      SeparatorAt(":y", j);
    }
    ParseExactly(s, "x", ":y");
  }

  /** A well-formed id is accepted. */
  lemma ParseAcceptsWellFormed()
    ensures ParseInvocationId("t123::r456") == Ids("t123", "r456")
  {
    var s := "t123::r456";
    assert s == MakeInvocationId("t123", "r456");
    forall j | 0 <= j < |"t123" + ":"| ensures !OccursAt("t123" + ":", Separator, j) {
      SeparatorAt("t123" + ":", j);
    }
    forall j | 0 <= j < |"r456"| ensures !OccursAt("r456", Separator, j) {
      SeparatorAt("r456", j);
    }
    ParseExactly(s, "t123", "r456");
  }

  /** Both halves may be empty. */
  lemma ParseAcceptsEmptyHalves()
    ensures ParseInvocationId("::") == Ids("", "")
  {
    assert "::" == MakeInvocationId("", "");
    forall j | 0 <= j < |"" + ":"| ensures !OccursAt("" + ":", Separator, j) {
      SeparatorAt("" + ":", j);
    }
    ParseExactly("::", "", "");
  }

  /** An id without a separator is rejected. */
  lemma ParseRejectsNoSeparator()
    ensures ParseInvocationId("abc") == Invalid(InvalidMessage("abc"))
  {
    forall j | 0 <= j < |"abc"| ensures !OccursAt("abc", Separator, j) {
      SeparatorAt("abc", j);
    }
    SplitNoOccurrence("abc", Separator);
  }

  /** An id with two separators is rejected. */
  lemma ParseRejectsTwoSeparators()
    ensures ParseInvocationId("t::r::x") == Invalid(InvalidMessage("t::r::x"))
  {
    var s := "t::r::x";
    SeparatorAt(s, 0);
    SeparatorAt(s, 1);
    assert Find(s, Separator) == Some(1);
    assert s[3..] == "r::x";
    SeparatorAt("r::x", 0);
    SeparatorAt("r::x", 1);
    assert Find("r::x", Separator) == Some(1);
    assert "r::x"[3..] == "x";
    SplitNoOccurrence("x", Separator);
    assert |Split(s, Separator)| == 3;
  }
}
