/** The component parser, `ImageAnalyzer._parse_components`: a line-by-line
    pass over the vision model's text that keeps one "current category" and
    files bulleted lines under it.

    `Step` is what one line does to the parser's state, `RunFrom`/`Run` fold
    it over the lines, and `Parse` is the result for a whole text; the
    method `ParseComponents` is the loop itself, proved to compute `Parse`. */
module Components {
  import opened Text
  import opened Errors

  /** One entry of the result mapping: a category key and its items, in the
      order the lines that produced them appear. */
  datatype Category = Category(key: string, items: seq<string>)

  /** The result's keys, in the order the result mapping is built. */
  const CategoryKeys: seq<string> :=
    ["ui_elements", "layout", "text_content", "interactions", "styling_notes", "data_requirements"]

  /** The header keywords: a line containing a word of group `g` (and none of
      an earlier group) switches to category `g`. */
  const KeywordGroups: seq<seq<string>> :=
    [["component", "element"], ["layout", "structure"], ["text", "content"],
     ["interaction", "action"], ["style", "visual"], ["data"]]

  /** The bullet markers a list line starts with: hyphen, bullet (U+2022),
      asterisk and en dash (U+2013). */
  const BulletMarkers: set<char> := {'-', '\U{2022}', '*', '\U{2013}'}

  /** What `lstrip` removes from the front of a list line: the markers and spaces. */
  const ItemLeadChars: set<char> := BulletMarkers + {' '}

  function Keys(components: seq<Category>): (keys: seq<string>)
    ensures |keys| == |components|
    ensures forall g :: 0 <= g < |components| ==> keys[g] == components[g].key
  {
    seq(|components|, g requires 0 <= g < |components| => components[g].key)
  }

  /** The mapping the parser starts from: every category, each one empty. */
  function Initial(): (components: seq<Category>)
    ensures Keys(components) == CategoryKeys
    ensures forall g :: 0 <= g < |components| ==> components[g].items == []
  {
    seq(|CategoryKeys|, g requires 0 <= g < |CategoryKeys| => Category(CategoryKeys[g], []))
  }

  /** The header test on a lowercased line, group by group in priority order. */
  function Classify(lower: string): (g: Option<nat>)
    ensures g.Some? ==> g.value < |CategoryKeys|
  {
    if Contains(lower, "component") || Contains(lower, "element") then Some(0)
    else if Contains(lower, "layout") || Contains(lower, "structure") then Some(1)
    else if Contains(lower, "text") || Contains(lower, "content") then Some(2)
    else if Contains(lower, "interaction") || Contains(lower, "action") then Some(3)
    else if Contains(lower, "style") || Contains(lower, "visual") then Some(4)
    else if Contains(lower, "data") then Some(5)
    else None
  }

  /** The line contains a keyword of group `g`. */
  predicate MatchesGroup(lower: string, g: nat)
    requires g < |KeywordGroups|
  {
    exists w :: w in KeywordGroups[g] && Contains(lower, w)
  }

  lemma MatchesGroupWords(lower: string)
    ensures MatchesGroup(lower, 0) <==> Contains(lower, "component") || Contains(lower, "element")
    ensures MatchesGroup(lower, 1) <==> Contains(lower, "layout") || Contains(lower, "structure")
    ensures MatchesGroup(lower, 2) <==> Contains(lower, "text") || Contains(lower, "content")
    ensures MatchesGroup(lower, 3) <==> Contains(lower, "interaction") || Contains(lower, "action")
    ensures MatchesGroup(lower, 4) <==> Contains(lower, "style") || Contains(lower, "visual")
    ensures MatchesGroup(lower, 5) <==> Contains(lower, "data")
  {
    assert KeywordGroups[0] == ["component", "element"];
    assert KeywordGroups[1] == ["layout", "structure"];
    assert KeywordGroups[2] == ["text", "content"];
    assert KeywordGroups[3] == ["interaction", "action"];
    assert KeywordGroups[4] == ["style", "visual"];
    assert KeywordGroups[5] == ["data"];
  }

  /** Header detection is first match over the keyword table: a line is a
      header for `g` exactly when it matches group `g` and no earlier group. */
  lemma ClassifyFirstMatch(lower: string, g: nat)
    requires g < |KeywordGroups|
    ensures Classify(lower) == Some(g) <==>
      MatchesGroup(lower, g) && forall h :: 0 <= h < g ==> !MatchesGroup(lower, h)
  {
    MatchesGroupWords(lower);
  }

  /** A line is no header exactly when it matches no keyword group. */
  lemma ClassifyNone(lower: string)
    ensures Classify(lower).None? <==> forall h :: 0 <= h < |KeywordGroups| ==> !MatchesGroup(lower, h)
  {
    MatchesGroupWords(lower);
  }

  /** The category a raw line switches to, if it is a header: the stripped
      line is not empty and its lowercase form names a category. */
  function Header(raw: string): Option<nat> {
    var line := Strip(raw);
    if line == "" then None else Classify(Lower(line))
  }

  /** The stripped line starts with a bullet marker. */
  predicate IsBulleted(line: string) {
    line != [] && line[0] in BulletMarkers
  }

  /** The item a raw line would contribute: markers and spaces removed from
      the front of the stripped line, then stripped again. */
  function LineItem(raw: string): (item: string)
    ensures IsStripped(item)
  {
    Strip(LStrip(Strip(raw), ItemLeadChars))
  }

  /** The raw line is a list line that is not a header and leaves a
      non-empty item. */
  predicate Contributes(raw: string) {
    Header(raw).None? && IsBulleted(Strip(raw)) && LineItem(raw) != ""
  }

  /** The parser's state between lines. */
  datatype ParserState = ParserState(current: Option<nat>, components: seq<Category>)

  /** The keys are the six categories in order and the current category is one of them. */
  predicate Valid(st: ParserState) {
    Keys(st.components) == CategoryKeys &&
    (st.current.Some? ==> st.current.value < |CategoryKeys|)
  }

  /** `st` with `item` appended to category `g`. */
  function Append(st: ParserState, g: nat, item: string): (next: ParserState)
    requires Valid(st) && g < |CategoryKeys|
    ensures Valid(next) && next.current == st.current
    ensures next.components == st.components[g := Category(st.components[g].key, st.components[g].items + [item])]
  {
    var components := st.components[g := Category(st.components[g].key, st.components[g].items + [item])];
    assert Keys(components) == Keys(st.components);
    st.(components := components)
  }

  /** One line of the loop: a header switches the current category and adds
      nothing; a list line under a current category adds its item there;
      every other line, blank ones included, changes nothing. */
  function Step(st: ParserState, raw: string): (next: ParserState)
    requires Valid(st)
    ensures Valid(next)
    ensures IsBlank(raw) ==> next == st
    ensures next.current == if Header(raw).Some? then Header(raw) else st.current
    ensures Contributes(raw) && st.current.Some? ==>
      next.components[st.current.value].items == st.components[st.current.value].items + [LineItem(raw)]
  {
    var header := Header(raw);
    if header.Some? then st.(current := header)
    else if st.current.Some? && Contributes(raw) then Append(st, st.current.value, LineItem(raw))
    else st
  }

  /** A line changes at most the current category, and only by adding its item. */
  lemma StepChanges(st: ParserState, raw: string, g: nat)
    requires Valid(st) && g < |CategoryKeys|
    ensures Step(st, raw).components[g] == st.components[g] ||
      (st.current == Some(g) && Contributes(raw) &&
       Step(st, raw).components[g].items == st.components[g].items + [LineItem(raw)])
  {
    if Header(raw).None? && st.current.Some? && Contributes(raw) {
      var next := Append(st, st.current.value, LineItem(raw));
      assert g != st.current.value ==> next.components[g] == st.components[g];
    }
  }

  /** The state after the given lines, starting from `st`. */
  function RunFrom(st: ParserState, lines: seq<string>): (end: ParserState)
    requires Valid(st)
    ensures Valid(end)
  {
    if lines == [] then st else Step(RunFrom(st, lines[..|lines| - 1]), lines[|lines| - 1])
  }

  /** The state before the first line. */
  function Start(): ParserState {
    ParserState(None, Initial())
  }

  /** The state after the given lines. */
  function Run(lines: seq<string>): (end: ParserState)
    ensures Valid(end)
  {
    RunFrom(Start(), lines)
  }

  /** `_parse_components(text)`. */
  function Parse(text: string): (components: seq<Category>)
    ensures Keys(components) == CategoryKeys
  {
    Run(Split(text, '\n')).components
  }

  /** `_parse_components`: split on newlines, then one pass over the lines. */
  method ParseComponents(text: string) returns (components: seq<Category>)
    ensures components == Parse(text)
    ensures Keys(components) == CategoryKeys
  {
    var lines := Split(text, '\n');
    components := Initial();
    var current: Option<nat> := None;
    for i := 0 to |lines|
      invariant ParserState(current, components) == Run(lines[..i])
    {
      assert lines[..i + 1][..i] == lines[..i];
      ghost var before := ParserState(current, components);
      assert Run(lines[..i + 1]) == Step(before, lines[i]);
      var line := Strip(lines[i]);
      if line == "" {
        assert IsBlank(lines[i]);
        continue;
      }
      var lowerLine := Lower(line);
      var header := Classify(lowerLine);
      assert header == Header(lines[i]);
      if header.Some? {
        current := header;
      } else if current.Some? && IsBulleted(line) {
        var item := Strip(LStrip(line, ItemLeadChars));
        assert item == LineItem(lines[i]);
        if item != "" {
          var g := current.value;
          components := components[g := Category(components[g].key, components[g].items + [item])];
          assert ParserState(current, components) == Append(before, g, item);
        }
      }
    }
    assert lines[..|lines|] == lines;
  }

  /** Folding over `a + b` is folding over `a`, then over `b`. */
  lemma {:induction false} RunFromAppend(st: ParserState, a: seq<string>, b: seq<string>)
    requires Valid(st)
    ensures RunFrom(st, a + b) == RunFrom(RunFrom(st, a), b)
    decreases |b|
  {
    if b == [] {
      assert a + b == a;
    } else {
      assert (a + b)[..|a + b| - 1] == a + b[..|b| - 1];
      RunFromAppend(st, a, b[..|b| - 1]);
    }
  }

  /** Lines without a header leave a state with no current category as it is. */
  lemma {:induction false} NoHeaderNoEffect(st: ParserState, lines: seq<string>)
    requires Valid(st) && st.current.None?
    requires forall k :: 0 <= k < |lines| ==> Header(lines[k]).None?
    ensures RunFrom(st, lines) == st
  {
    if lines != [] {
      NoHeaderNoEffect(st, lines[..|lines| - 1]);
      var prev := RunFrom(st, lines[..|lines| - 1]);
      var next := Step(prev, lines[|lines| - 1]);
      forall g | 0 <= g < |CategoryKeys|
        ensures next.components[g] == prev.components[g]
      {
        StepChanges(prev, lines[|lines| - 1], g);
      }
      assert next.components == prev.components;
    }
  }

  /** Text before the first header contributes nothing: parsing `pre + post`
      gives what parsing `post` alone gives. */
  lemma LinesBeforeFirstHeaderIgnored(pre: seq<string>, post: seq<string>)
    requires forall k :: 0 <= k < |pre| ==> Header(pre[k]).None?
    ensures Run(pre + post) == Run(post)
  {
    RunFromAppend(Start(), pre, post);
    NoHeaderNoEffect(Start(), pre);
  }

  /** Items only ever accumulate at the end of their category: the lists
      after a prefix of the lines are prefixes of the final lists, so items
      keep the order of the lines they came from. */
  lemma {:induction false} RunExtendsPrefix(lines: seq<string>, k: nat)
    requires k <= |lines|
    ensures forall g :: 0 <= g < |CategoryKeys| ==>
      Run(lines[..k]).components[g].items <= Run(lines).components[g].items
    decreases |lines| - k
  {
    if k < |lines| {
      RunExtendsPrefix(lines, k + 1);
      assert lines[..k + 1][..k] == lines[..k];
      var before := Run(lines[..k]);
      var after := Run(lines[..k + 1]);
      assert after == Step(before, lines[k]);
      forall g | 0 <= g < |CategoryKeys|
        ensures before.components[g].items <= after.components[g].items
      {
        StepChanges(before, lines[k], g);
      }
    } else {
      assert lines[..k] == lines;
    }
  }

  /** Total number of items over all categories. */
  function TotalItems(components: seq<Category>): nat {
    if components == [] then 0
    else TotalItems(components[..|components| - 1]) + |components[|components| - 1].items|
  }

  lemma {:induction false} TotalItemsUpdate(components: seq<Category>, g: nat, c: Category)
    requires g < |components|
    ensures TotalItems(components[g := c]) + |components[g].items| == TotalItems(components) + |c.items|
    decreases |components|
  {
    var n := |components|;
    var updated := components[g := c];
    if g < n - 1 {
      assert updated[..n - 1] == components[..n - 1][g := c];
      TotalItemsUpdate(components[..n - 1], g, c);
    } else {
      assert updated[..n - 1] == components[..n - 1];
    }
  }

  lemma {:induction false} TotalItemsEmpty(components: seq<Category>)
    requires forall g :: 0 <= g < |components| ==> components[g].items == []
    ensures TotalItems(components) == 0
    decreases |components|
  {
    if components != [] {
      TotalItemsEmpty(components[..|components| - 1]);
    }
  }

  /** Each line adds at most one item, so there are never more items than lines. */
  lemma {:induction false} ItemsAtMostLines(lines: seq<string>)
    ensures TotalItems(Run(lines).components) <= |lines|
  {
    if lines != [] {
      var init := lines[..|lines| - 1];
      ItemsAtMostLines(init);
      var prev := Run(init);
      var next := Step(prev, lines[|lines| - 1]);
      assert Run(lines) == next;
      if next.components != prev.components {
        var g :| 0 <= g < |CategoryKeys| && next.components[g] != prev.components[g];
        StepChanges(prev, lines[|lines| - 1], g);
        assert prev.current == Some(g);
        assert |next.components[g].items| == |prev.components[g].items| + 1;
        assert next.components == prev.components[g := next.components[g]];
        TotalItemsUpdate(prev.components, g, next.components[g]);
      }
    } else {
      TotalItemsEmpty(Initial());
    }
  }

  /** `x` is the item of some list line of `lines` that is not a header. */
  predicate ItemOfSomeLine(lines: seq<string>, x: string) {
    exists k :: 0 <= k < |lines| && Contributes(lines[k]) && LineItem(lines[k]) == x
  }

  /** An item present after one more line was there before, or is that line's item. */
  lemma StepItems(st: ParserState, raw: string, g: nat, x: string)
    requires Valid(st) && g < |CategoryKeys|
    requires x in Step(st, raw).components[g].items
    ensures x in st.components[g].items || (Contributes(raw) && LineItem(raw) == x)
  {
    var next := Step(st, raw);
    StepChanges(st, raw, g);
    if next.components[g] != st.components[g] {
      assert next.components[g].items == st.components[g].items + [LineItem(raw)];
    }
  }

  /** Every item stored in `st` is non-empty and stripped, and comes from a line of `lines`. */
  predicate ItemsFrom(st: ParserState, lines: seq<string>)
    requires Valid(st)
  {
    forall g, x :: 0 <= g < |CategoryKeys| && x in st.components[g].items ==>
      x != "" && IsStripped(x) && ItemOfSomeLine(lines, x)
  }

  /** `ItemOfSomeLine` survives adding lines at the end. */
  lemma ItemOfLongerLines(init: seq<string>, raw: string, x: string)
    requires ItemOfSomeLine(init, x)
    ensures ItemOfSomeLine(init + [raw], x)
  {
    var k :| 0 <= k < |init| && Contributes(init[k]) && LineItem(init[k]) == x;
    assert (init + [raw])[k] == init[k];
  }

  lemma ItemFromStepAt(st: ParserState, init: seq<string>, raw: string, g: nat, x: string)
    requires Valid(st) && ItemsFrom(st, init) && g < |CategoryKeys|
    requires x in Step(st, raw).components[g].items
    ensures x != "" && IsStripped(x) && ItemOfSomeLine(init + [raw], x)
  {
    StepItems(st, raw, g, x);
    if x in st.components[g].items {
      ItemOfLongerLines(init, raw, x);
    } else {
      var lines := init + [raw];
      assert lines[|init|] == raw;
      assert Contributes(lines[|init|]) && LineItem(lines[|init|]) == x;
    }
  }

  /** Every stored item is non-empty, carries no surrounding whitespace, and
      is the item of some list line of the input that is not a header. */
  lemma ItemsFromStep(st: ParserState, init: seq<string>, raw: string)
    requires Valid(st) && ItemsFrom(st, init)
    ensures ItemsFrom(Step(st, raw), init + [raw])
  {
    forall g, x | 0 <= g < |CategoryKeys| && x in Step(st, raw).components[g].items
      ensures x != "" && IsStripped(x) && ItemOfSomeLine(init + [raw], x)
    {
      ItemFromStepAt(st, init, raw, g, x);
    }
  }

  lemma {:induction false} ItemsComeFromListLines(lines: seq<string>)
    ensures ItemsFrom(Run(lines), lines)
  {
    if lines != [] {
      var init := lines[..|lines| - 1];
      var raw := lines[|lines| - 1];
      ItemsComeFromListLines(init);
      ItemsFromStep(Run(init), init, raw);
      assert init + [raw] == lines;
    } else {
      assert Run(lines) == Start();
    }
  }
}
