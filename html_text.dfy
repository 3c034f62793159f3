/** The visible-text extractor of `_html.py` (repeated unchanged, with the
    same skip set and the same 12000-character default, in `workflows.py`).
    An HTML tokenizer calls back into `TextExtractor` once per start tag, end
    tag and run of character data; the tokenizer is replaced here by the
    sequence of those callbacks. */
module HtmlText {
  import opened PyStrings

  /** One tokenizer callback. */
  datatype Event = StartTag(tag: string) | EndTag(tag: string) | Data(text: string)

  /** Tags whose content is not visible text. */
  const SkipTags: set<string> := {"script", "style", "nav", "footer", "head", "header", "noscript"}

  /** Default truncation limit of `extract_text`. */
  const DefaultMaxChars: int := 12000

  /** Case-insensitive membership in the skip set. */
  predicate IsSkipTag(tag: string) {
    AsciiLower(tag) in SkipTags
  }

  /** What `handle_data` stores: non-empty, no whitespace at either end. */
  predicate IsFragment(s: string) {
    s != [] && IsStripped(s)
  }

  predicate AllFragments(texts: seq<string>) {
    forall k :: 0 <= k < |texts| ==> IsFragment(texts[k])
  }

  lemma AppendFragment(texts: seq<string>, s: string)
    requires AllFragments(texts) && IsFragment(s)
    ensures AllFragments(texts + [s])
  {
    assert forall k :: 0 <= k < |texts| ==> (texts + [s])[k] == texts[k];
  }

  // ------------------------------------------------ specification of a feed

  /** The extractor's two fields as a value. */
  datatype State = State(depth: nat, texts: seq<string>)

  /** The effect of one callback. */
  function Step(st: State, e: Event): State {
    match e
    case StartTag(t) => if IsSkipTag(t) then st.(depth := st.depth + 1) else st
    case EndTag(t) => if IsSkipTag(t) && st.depth > 0 then st.(depth := st.depth - 1) else st
    case Data(s) => if st.depth == 0 && Strip(s) != "" then st.(texts := st.texts + [Strip(s)]) else st
  }

  /** The effect of a sequence of callbacks, in order. */
  function Run(st: State, events: seq<Event>): State
    decreases |events|
  {
    if events == [] then st else Run(Step(st, events[0]), events[1..])
  }

  const Initial: State := State(0, [])

  /** The text `get_text` returns after a whole document. */
  function VisibleText(events: seq<Event>): string {
    Collapse(Join(" ", Run(Initial, events).texts))
  }

  lemma {:induction false} RunSnoc(st: State, events: seq<Event>, e: Event)
    ensures Run(st, events + [e]) == Step(Run(st, events), e)
    decreases |events|
  {
    if events == [] {
      assert events + [e] == [e];
      assert [e][1..] == [];
    } else {
      assert (events + [e])[0] == events[0];
      assert (events + [e])[1..] == events[1..] + [e];
      RunSnoc(Step(st, events[0]), events[1..], e);
    }
  }

  /** A data callback never removes fragments and adds at most one, which is
      always a clean fragment. */
  lemma StepKeepsFragments(st: State, e: Event)
    requires AllFragments(st.texts)
    ensures AllFragments(Step(st, e).texts)
  {
    match e
    case Data(s) =>
      StripIsFragment(s);
    case _ =>
      assert Step(st, e).texts == st.texts;
  }

  /** `s.strip()` is empty exactly for blank `s`, and otherwise a fragment. */
  lemma StripIsFragment(s: string)
    ensures Strip(s) == "" <==> IsBlank(s)
    ensures Strip(s) != "" ==> IsFragment(Strip(s))
  {
    StripSpec(s);
  }

  /** Every fragment kept after any sequence of callbacks is non-empty and
      has no leading or trailing whitespace. */
  lemma {:induction false} RunKeepsFragments(st: State, events: seq<Event>)
    requires AllFragments(st.texts)
    ensures AllFragments(Run(st, events).texts)
    decreases |events|
  {
    if events != [] {
      StepKeepsFragments(st, events[0]);
      RunKeepsFragments(Step(st, events[0]), events[1..]);
    }
  }

  /** Skip depth in force just before the `i`-th callback. */
  function DepthBefore(events: seq<Event>, i: nat): nat
    requires i <= |events|
  {
    Run(Initial, events[..i]).depth
  }

  /** The `i`-th callback is character data that `handle_data` keeps. */
  predicate Shown(events: seq<Event>, i: nat)
    requires i < |events|
  {
    events[i].Data? && DepthBefore(events, i) == 0 && !IsBlank(events[i].text)
  }

  /** No character data is both outside every skip tag and non-blank. */
  predicate NothingVisible(events: seq<Event>) {
    forall i :: 0 <= i < |events| ==> !Shown(events, i)
  }

  lemma {:induction false} TextsEmptyIff(events: seq<Event>)
    ensures Run(Initial, events).texts == [] <==> NothingVisible(events)
    decreases |events|
  {
    if events != [] {
      var n := |events| - 1;
      var p := events[..n];
      var e := events[n];
      assert events == p + [e];
      RunSnoc(Initial, p, e);
      TextsEmptyIff(p);
      var before := Run(Initial, p);
      StepTextsEmpty(before, e);
      assert DepthBefore(events, n) == before.depth;
      ShownOfPrefix(events, n);
      assert NothingVisible(events) <==> NothingVisible(p) && !Shown(events, n);
    }
  }

  /** One callback leaves no text exactly when there was none and it is not
      kept character data. */
  lemma StepTextsEmpty(st: State, e: Event)
    ensures Step(st, e).texts == [] <==>
      st.texts == [] && !(e.Data? && st.depth == 0 && !IsBlank(e.text))
  {
    match e
    case Data(text) =>
      StripIsFragment(text);
    case _ =>
      assert Step(st, e).texts == st.texts;
  }

  /** Whether a callback before position `n` is shown depends only on the
      callbacks before `n`. */
  lemma ShownOfPrefix(events: seq<Event>, n: nat)
    requires n <= |events|
    ensures forall i :: 0 <= i < n ==> Shown(events, i) == Shown(events[..n], i)
  {
    forall i | 0 <= i < n ensures Shown(events, i) == Shown(events[..n], i) {
      assert events[..i] == events[..n][..i];
    }
  }

  /** The extracted text is empty exactly when every piece of character data
      is blank or lies inside a skip tag. */
  lemma VisibleTextEmptyIff(events: seq<Event>)
    ensures VisibleText(events) == "" <==> NothingVisible(events)
  {
    var texts := Run(Initial, events).texts;
    TextsEmptyIff(events);
    RunKeepsFragments(Initial, events);
    if texts != [] {
      JoinNonEmpty(" ", texts);
      CollapseNonEmpty(Join(" ", texts));
    }
  }

  /** A skip tag opened under one name is closed by any other skip tag:
      the data in between is dropped and the data after it is kept. */
  lemma MismatchedSkipTagsClose(open: string, body: string, close: string, after: string)
    requires IsSkipTag(open) && IsSkipTag(close) && !IsBlank(after)
    ensures Run(Initial, [StartTag(open), Data(body), EndTag(close), Data(after)])
         == State(0, [Strip(after)])
  {
    SkipTagOpensAndCloses(open, close);
    StripIsFragment(after);
    KeptData(after);
    RunFour(Initial, StartTag(open), Data(body), EndTag(close), Data(after));
  }

  /** From the initial state a skip start tag enters depth 1, where data is
      dropped and a skip end tag returns to the initial state. */
  lemma SkipTagOpensAndCloses(open: string, close: string)
    requires IsSkipTag(open) && IsSkipTag(close)
    ensures Step(Initial, StartTag(open)) == State(1, [])
    ensures forall body :: Step(State(1, []), Data(body)) == State(1, [])
    ensures Step(State(1, []), EndTag(close)) == Initial
  {
  }

  /** Data with something left after stripping is kept at depth 0. */
  lemma KeptData(s: string)
    requires Strip(s) != ""
    ensures Step(Initial, Data(s)) == State(0, [Strip(s)])
  {
    assert [] + [Strip(s)] == [Strip(s)];
  }

  /** Four callbacks in a row. */
  lemma RunFour(st: State, a: Event, b: Event, c: Event, d: Event)
    ensures Run(st, [a, b, c, d]) == Step(Step(Step(Step(st, a), b), c), d)
  {
    var s1 := Step(st, a);
    var s2 := Step(s1, b);
    var s3 := Step(s2, c);
    assert [a, b, c, d][1..] == [b, c, d];
    assert Run(st, [a, b, c, d]) == Run(s1, [b, c, d]);
    assert [b, c, d][1..] == [c, d];
    assert Run(s1, [b, c, d]) == Run(s2, [c, d]);
    assert [c, d][1..] == [d];
    assert Run(s2, [c, d]) == Run(s3, [d]);
    assert [d][1..] == [];
    assert Run(s3, [d]) == Run(Step(s3, d), []);
  }

  /** Skip tags are recognised whatever their letter case: two tag names
      that agree letter by letter up to ASCII case are both skipped or both
      not. */
  lemma SkipTagIgnoresCase(a: string, b: string)
    requires |a| == |b|
    requires forall i :: 0 <= i < |a| ==> LowerChar(a[i]) == LowerChar(b[i])
    ensures IsSkipTag(a) <==> IsSkipTag(b)
  {
    AsciiLowerIgnoresCase(a, b);
  }

  // --------------------------------------------- re.sub(r"\s{3,}", "\n\n", s)

  /** Length of the whitespace run at the start of `s`. */
  function SpaceRun(s: string): (k: nat)
    ensures k <= |s|
    ensures forall i :: 0 <= i < k ==> IsSpace(s[i])
    ensures k < |s| ==> !IsSpace(s[k])
  {
    if s != [] && IsSpace(s[0]) then 1 + SpaceRun(s[1..]) else 0
  }

  /** Every maximal whitespace run of three or more characters becomes a
      paragraph break, scanning left to right as the regex engine does. */
  function Collapse(s: string): string
    decreases |s|
  {
    if s == [] then []
    else
      var k := SpaceRun(s);
      if k >= 3 then "\n\n" + Collapse(s[k..])
      else if k > 0 then s[..k] + Collapse(s[k..])
      else [s[0]] + Collapse(s[1..])
  }

  /** Three whitespace characters in a row start at `i`. */
  predicate TripleAt(s: string, i: int) {
    0 <= i && i + 2 < |s| && IsSpace(s[i]) && IsSpace(s[i + 1]) && IsSpace(s[i + 2])
  }

  predicate NoTriple(s: string) {
    forall i :: 0 <= i < |s| ==> !TripleAt(s, i)
  }

  /** The characters of `s` that are not whitespace, in order. */
  function NonSpace(s: string): string {
    if s == [] then [] else (if IsSpace(s[0]) then [] else [s[0]]) + NonSpace(s[1..])
  }

  lemma CollapseNonEmpty(s: string)
    requires s != []
    ensures Collapse(s) != []
  {
  }

  lemma CollapseHead(s: string)
    requires s != [] && !IsSpace(s[0])
    ensures Collapse(s) != [] && Collapse(s)[0] == s[0]
  {
  }

  /** A triple inside `y` is a triple of `x + y`, shifted by `|x|`. */
  lemma TripleShift(x: string, y: string, i: int)
    requires 0 <= i
    ensures TripleAt(y, i) <==> TripleAt(x + y, i + |x|)
  {
    if i + 2 < |y| {
      assert (x + y)[i + |x|] == y[i] && (x + y)[i + |x| + 1] == y[i + 1] && (x + y)[i + |x| + 2] == y[i + 2];
    }
  }

  /** A triple inside a prefix of `s` is a triple of `s`. */
  lemma TriplePrefix(s: string, n: nat, i: int)
    requires n <= |s|
    ensures TripleAt(s[..n], i) ==> TripleAt(s, i)
  {
    if 0 <= i && i + 2 < n {
      assert s[..n][i] == s[i] && s[..n][i + 1] == s[i + 1] && s[..n][i + 2] == s[i + 2];
    }
  }

  lemma NoTripleAfterShortRun(x: string, y: string)
    requires |x| <= 2 && NoTriple(y) && (y == [] || !IsSpace(y[0]))
    ensures NoTriple(x + y)
  {
    forall i | 0 <= i < |x + y| ensures !TripleAt(x + y, i) {
      if i >= |x| {
        TripleShift(x, y, i - |x|);
      } else if y != [] {
        assert (x + y)[|x|] == y[0];
      }
    }
  }

  lemma NoTripleAfterVisible(c: char, y: string)
    requires !IsSpace(c) && NoTriple(y)
    ensures NoTriple([c] + y)
  {
    forall i | 0 <= i < |[c] + y| ensures !TripleAt([c] + y, i) {
      if i >= 1 {
        TripleShift([c], y, i - 1);
      }
    }
  }

  /** After collapsing, no three whitespace characters are adjacent. */
  lemma {:induction false} CollapseNoTriple(s: string)
    ensures NoTriple(Collapse(s))
    decreases |s|
  {
    if s != [] {
      var k := SpaceRun(s);
      if k > 0 {
        var t := s[k..];
        CollapseNoTriple(t);
        if t != [] { CollapseHead(t); }
        if k >= 3 {
          NoTripleAfterShortRun("\n\n", Collapse(t));
        } else {
          NoTripleAfterShortRun(s[..k], Collapse(t));
        }
      } else {
        CollapseNoTriple(s[1..]);
        NoTripleAfterVisible(s[0], Collapse(s[1..]));
      }
    }
  }

  lemma {:induction false} NonSpaceAppend(a: string, b: string)
    ensures NonSpace(a + b) == NonSpace(a) + NonSpace(b)
    decreases |a|
  {
    if a == [] {
      assert a + b == b;
    } else {
      assert (a + b)[0] == a[0];
      assert (a + b)[1..] == a[1..] + b;
      NonSpaceAppend(a[1..], b);
    }
  }

  lemma {:induction false} NonSpaceBlank(a: string)
    requires IsBlank(a)
    ensures NonSpace(a) == []
    decreases |a|
  {
    if a != [] { NonSpaceBlank(a[1..]); }
  }

  /** Collapsing only rewrites whitespace: the other characters survive, in
      order. */
  lemma {:induction false} CollapseKeepsNonSpace(s: string)
    ensures NonSpace(Collapse(s)) == NonSpace(s)
    decreases |s|
  {
    if s != [] {
      var k := SpaceRun(s);
      if k > 0 {
        var t := s[k..];
        CollapseKeepsNonSpace(t);
        assert s == s[..k] + t;
        BlankPrefixNonSpace(s[..k], t);
        var run := if k >= 3 then "\n\n" else s[..k];
        assert Collapse(s) == run + Collapse(t);
        BlankPrefixNonSpace(run, Collapse(t));
      } else {
        CollapseKeepsNonSpace(s[1..]);
        assert s == [s[0]] + s[1..];
        NonSpaceAppend([s[0]], s[1..]);
        NonSpaceAppend([s[0]], Collapse(s[1..]));
      }
    }
  }

  /** A whitespace prefix adds no visible characters. */
  lemma BlankPrefixNonSpace(p: string, t: string)
    requires IsBlank(p)
    ensures NonSpace(p + t) == NonSpace(t)
  {
    NonSpaceAppend(p, t);
    NonSpaceBlank(p);
  }

  /** Text whose whitespace runs are all shorter than three is left as it is. */
  lemma {:induction false} CollapseKeepsShortRuns(s: string)
    requires NoTriple(s)
    ensures Collapse(s) == s
    decreases |s|
  {
    if s != [] {
      var k := SpaceRun(s);
      assert !TripleAt(s, 0);
      assert k < 3;
      var j := if k > 0 then k else 1;
      var t := s[j..];
      assert s == s[..j] + t;
      forall i | 0 <= i < |t| ensures !TripleAt(t, i) {
        TripleShift(s[..j], t, i);
      }
      CollapseKeepsShortRuns(t);
    }
  }

  /** Collapsing twice is the same as collapsing once. */
  lemma CollapseIdempotent(s: string)
    ensures Collapse(Collapse(s)) == Collapse(s)
  {
    CollapseNoTriple(s);
    CollapseKeepsShortRuns(Collapse(s));
  }

  // --------------------------------------------------------- s[:max_chars]

  /** Python's slice `s[:maxChars]`, including negative limits. */
  function Truncate(s: string, maxChars: int): (r: string)
    ensures |r| <= |s| && r == s[..|r|]
    ensures maxChars >= 0 ==> |r| == if maxChars < |s| then maxChars else |s|
    ensures maxChars < 0 ==> |r| == if |s| + maxChars > 0 then |s| + maxChars else 0
  {
    if maxChars >= 0 then (if maxChars < |s| then s[..maxChars] else s)
    else if |s| + maxChars > 0 then s[..|s| + maxChars]
    else []
  }

  // ------------------------------------------------------------ extractor

  /** `_TextExtractor`: the skip depth and the kept fragments. */
  class TextExtractor {
    var texts: seq<string>
    var depth: nat

    ghost predicate Valid()
      reads this
    {
      AllFragments(texts)
    }

    constructor ()
      ensures Valid() && texts == [] && depth == 0
    {
      texts := [];
      depth := 0;
    }

    method HandleStartTag(tag: string)
      requires Valid()
      modifies this
      ensures Valid() && texts == old(texts)
      ensures depth == if IsSkipTag(tag) then old(depth) + 1 else old(depth)
    {
      if IsSkipTag(tag) {
        depth := depth + 1;
      }
    }

    method HandleEndTag(tag: string)
      requires Valid()
      modifies this
      ensures Valid() && texts == old(texts)
      ensures depth == if IsSkipTag(tag) && old(depth) > 0 then old(depth) - 1 else old(depth)
    {
      if IsSkipTag(tag) && depth > 0 {
        depth := depth - 1;
      }
    }

    method HandleData(data: string)
      requires Valid()
      modifies this
      ensures Valid() && depth == old(depth)
      ensures texts == if old(depth) == 0 && !IsBlank(data) then old(texts) + [Strip(data)] else old(texts)
    {
      StripIsFragment(data);
      var stripped := Strip(data);
      if depth == 0 && stripped != "" {
        AppendFragment(texts, stripped);
        texts := texts + [stripped];
      }
    }

    /** The tokenizer's dispatch of a document's callbacks, in order. */
    method Feed(events: seq<Event>)
      requires Valid()
      modifies this
      ensures Valid()
      ensures State(depth, texts) == Run(old(State(depth, texts)), events)
    {
      var i := 0;
      while i < |events|
        invariant 0 <= i <= |events|
        invariant Valid()
        invariant Run(State(depth, texts), events[i..]) == Run(old(State(depth, texts)), events)
      {
        ghost var before := State(depth, texts);
        assert events[i..][0] == events[i] && events[i..][1..] == events[i + 1..];
        StripIsFragment(if events[i].Data? then events[i].text else "");
        match events[i] {
          case StartTag(t) => HandleStartTag(t);
          case EndTag(t) => HandleEndTag(t);
          case Data(s) => HandleData(s);
        }
        assert State(depth, texts) == Step(before, events[i]);
        i := i + 1;
      }
    }

    function GetText(): string
      reads this
    {
      Collapse(Join(" ", texts))
    }
  }

  /** `extract_text`: the visible text of a document, cut to `maxChars`. */
  method ExtractText(events: seq<Event>, maxChars: int := DefaultMaxChars) returns (text: string)
    ensures text == Truncate(VisibleText(events), maxChars)
  {
    var extractor := new TextExtractor();
    extractor.Feed(events);
    text := Truncate(extractor.GetText(), maxChars);
  }

  /** With a non-negative limit the result is a prefix of the whole visible
      text, no longer than the limit, equal to it when it already fits, and
      free of whitespace runs longer than two. */
  lemma ExtractedTextShape(events: seq<Event>, maxChars: int)
    requires maxChars >= 0
    ensures var full := VisibleText(events);
      var r := Truncate(full, maxChars);
      && |r| <= maxChars
      && r == full[..|r|]
      && (|full| <= maxChars ==> r == full)
      && NoTriple(r)
  {
    var full := VisibleText(events);
    var r := Truncate(full, maxChars);
    CollapseNoTriple(Join(" ", Run(Initial, events).texts));
    forall i | 0 <= i < |r| ensures !TripleAt(r, i) {
      TriplePrefix(full, |r|, i);
    }
  }
}
