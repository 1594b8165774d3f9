/**
 * The live preview (src/components/app-builder/preview-component.tsx): which
 * code is shown, how the component's state follows it, and how the code is
 * prepared for the sandboxed frame: fence markers removed, white space
 * trimmed, and the default export turned into a `window.default`
 * assignment.
 *
 * The frame's HTML page around the prepared code is not modelled.
 */
module Preview {
  import opened Wrappers
  import opened JsText

  /** `generatedCode || streamingCode`. */
  function CodeToRender(generatedCode: string, streamingCode: string): (r: string)
    ensures generatedCode != "" ==> r == generatedCode
    ensures generatedCode == "" ==> r == streamingCode
  {
    if generatedCode != "" then generatedCode else streamingCode
  }

  /** The component's own state: the code last seen, the frame key, and the preview error. */
  datatype PreviewState = PreviewState(code: string, key: nat, previewError: Option<string>)

  /** The first render's state. */
  function Initial(codeToRender: string): (r: PreviewState)
    ensures r.code == codeToRender && r.key == 0 && r.previewError == None
  {
    PreviewState(codeToRender, 0, None)
  }

  /** The update made while rendering when the code to show has changed. */
  function Follow(st: PreviewState, codeToRender: string): (r: PreviewState)
    ensures r.code == codeToRender
    ensures codeToRender != st.code ==> r.key == st.key + 1 && r.previewError == None
    ensures codeToRender == st.code ==> r == st
  {
    if codeToRender != st.code then PreviewState(codeToRender, st.key + 1, None) else st
  }

  /** Following the same code twice is following it once; the key counts the changes of code. */
  lemma FollowSettles(st: PreviewState, a: string, b: string)
    ensures Follow(Follow(st, a), a) == Follow(st, a)
    ensures Follow(Follow(st, a), b).key == st.key + (if a != st.code then 1 else 0) + (if b != a then 1 else 0)
  {
  }

  // ------------------------------------------------------------ fence removal

  /** `/```[\w]*\n?/` at `i`: the backticks, a greedy run of word characters, then a newline if one follows. */
  function TaggedTicks(s: string, i: nat): Option<nat>
  {
    if StartsAt(s, i, "```") then
      var e := RunEnd(s, i + 3, Word);
      Some(if e < |s| && s[e] == '\n' then e + 1 else e)
    else None
  }

  /** `/```\n?/` at `i`. */
  function BareTicks(s: string, i: nat): Option<nat>
  {
    if StartsAt(s, i, "```") then Some(if i + 3 < |s| && s[i + 3] == '\n' then i + 4 else i + 3) else None
  }

  /** Three backticks in a row at `k`. */
  predicate TicksHere(t: string, k: int)
  {
    0 <= k && k + 3 <= |t| && t[k] == '`' && t[k + 1] == '`' && t[k + 2] == '`'
  }

  /** No three backticks in a row. */
  predicate NoTicks(t: string)
  {
    forall k :: 0 <= k <= |t| ==> !TicksHere(t, k)
  }

  /** `cleanCode`: both global removals, in order, then `trim()`. */
  function CleanCode(code: string): (r: string)
    ensures IsTrimmed(r)
  {
    var s1 := RemoveAll(code, TaggedTicks, 0);
    var s2 := RemoveAll(s1, BareTicks, 0);
    Trim(s2)
  }

  /** Three backticks start at `i` exactly when the three characters there are backticks. */
  lemma TicksAt(s: string, i: int)
    ensures StartsAt(s, i, "```") <==> 0 <= i && i + 3 <= |s| && s[i] == '`' && s[i + 1] == '`' && s[i + 2] == '`'
  {
    if 0 <= i && i + 3 <= |s| {
      assert s[i..i + 3] == [s[i], s[i + 1], s[i + 2]];
    }
  }

  /** Where no backticks start, the first removal keeps the character. */
  lemma KeepOne(s: string, i: nat)
    requires i < |s| && !StartsAt(s, i, "```")
    ensures RemoveAll(s, TaggedTicks, i) == [s[i]] + RemoveAll(s, TaggedTicks, i + 1)
  {
  }

  /**
   * The first removal leaves no three backticks in a row: a kept backtick
   * did not start a match, so one of the next two characters is not a
   * backtick, and it is kept too.
   */
  lemma {:induction false} FirstPassLeavesNoTicks(s: string, i: nat)
    requires i <= |s|
    ensures NoTicks(RemoveAll(s, TaggedTicks, i))
    decreases |s| - i
  {
    if i == |s| {
      assert RemoveAll(s, TaggedTicks, i) == [];
    } else if IsMatch(TaggedTicks, s, i) {
      FirstPassLeavesNoTicks(s, TaggedTicks(s, i).value);
    } else {
      var rest := RemoveAll(s, TaggedTicks, i + 1);
      var out := [s[i]] + rest;
      TicksAt(s, i);
      KeepOne(s, i);
      FirstPassLeavesNoTicks(s, i + 1);
      if s[i] == '`' {
        NextKept(s, i);
      }
      forall k | 0 <= k <= |out|
        ensures !TicksHere(out, k)
      {
        if k >= 1 {
          assert !TicksHere(rest, k - 1);
        }
      }
    }
  }

  /** After a kept backtick, the next two characters of the output are not both backticks. */
  lemma NextKept(s: string, i: nat)
    requires i < |s| && s[i] == '`' && !StartsAt(s, i, "```")
    ensures var rest := RemoveAll(s, TaggedTicks, i + 1); |rest| < 2 || rest[0] != '`' || rest[1] != '`'
  {
    TicksAt(s, i);
    if i + 1 < |s| {
      TicksAt(s, i + 1);
      KeepOne(s, i + 1);
      if s[i + 1] == '`' && i + 2 < |s| {
        TicksAt(s, i + 2);
        KeepOne(s, i + 2);
      }
    }
  }

  /** A piece of a text without three backticks in a row has none either. */
  lemma NoTicksInfix(t: string, a: nat, r: string)
    requires NoTicks(t) && a + |r| <= |t| && r == t[a..a + |r|]
    ensures NoTicks(r)
  {
    forall k | 0 <= k <= |r|
      ensures !TicksHere(r, k)
    {
      assert !TicksHere(t, a + k);
    }
  }

  /** The second removal finds nothing in a text without three backticks in a row. */
  lemma SecondPassIdle(t: string)
    requires NoTicks(t)
    ensures RemoveAll(t, BareTicks, 0) == t
  {
    forall k | 0 <= k <= |t|
      ensures !IsMatch(BareTicks, t, k)
    {
      TicksAt(t, k);
      assert !TicksHere(t, k);
    }
    RemoveAllWithoutMatch(t, BareTicks, 0);
    assert t[0..] == t;
  }

  /** Trimming cannot create three backticks in a row. */
  lemma TrimKeepsNoTicks(t: string)
    requires NoTicks(t)
    ensures NoTicks(Trim(t))
  {
    var u := TrimStart(t);
    NoTicksInfix(t, |t| - |u|, u);
    var r := TrimEnd(u);
    NoTicksInfix(u, 0, r);
    assert Trim(t) == r;
  }

  /**
   * Cleaning leaves no fence marker behind, and the second removal never
   * finds anything: the first has already taken every run of three backticks.
   */
  lemma CleanCodeRemovesFences(code: string)
    ensures NoTicks(CleanCode(code))
    ensures CleanCode(code) == Trim(RemoveAll(code, TaggedTicks, 0))
  {
    var s1 := RemoveAll(code, TaggedTicks, 0);
    FirstPassLeavesNoTicks(code, 0);
    SecondPassIdle(s1);
    TrimKeepsNoTicks(s1);
  }

  /** The opening fence and its tag are one match, ending after the newline. */
  lemma FenceOpen(s: string, tag: string, more: string)
    requires forall k :: 0 <= k < |tag| ==> IsWordChar(tag[k])
    requires s == "```" + tag + "\n" + more
    ensures TaggedTicks(s, 0) == Some(|tag| + 4)
  {
    assert s[..3] == "```" && s[3..3 + |tag|] == tag && s[3 + |tag|] == '\n';
    RunOver(s, 3, 3 + |tag|, Word);
  }

  /** Inside a body without backticks no match starts, so the body is kept as it is. */
  lemma FenceBodyKept(s: string, h: nat, n: nat)
    requires h <= n <= |s| && '`' !in s[h..n]
    ensures RemoveAll(s, TaggedTicks, h) == s[h..n] + RemoveAll(s, TaggedTicks, n)
  {
    forall k | h <= k < n
      ensures !IsMatch(TaggedTicks, s, k)
    {
      TicksAt(s, k);
      assert s[k] == s[h..n][k - h];
    }
    RemoveAllCopies(s, TaggedTicks, h, n);
  }

  /** The closing fence at the very end is one last match. */
  lemma FenceClose(s: string, n: nat)
    requires n + 3 == |s| && s[n..] == "```"
    ensures RemoveAll(s, TaggedTicks, n) == []
  {
    TicksAt(s, n);
    assert s[n] == s[n..][0] && s[n + 1] == s[n..][1] && s[n + 2] == s[n..][2];
    assert TaggedTicks(s, n) == Some(|s|);
  }

  /** A fenced block, tagged with any word or with nothing, comes out as its body. */
  lemma CleanFencedBlock(tag: string, body: string)
    requires forall k :: 0 <= k < |tag| ==> IsWordChar(tag[k])
    requires '`' !in body && IsTrimmed(body)
    ensures CleanCode("```" + tag + "\n" + body + "\n```") == body
  {
    var s := "```" + tag + "\n" + body + "\n```";
    var h := |tag| + 4;
    var n := h + |body| + 1;
    assert s == "```" + tag + "\n" + (body + "\n```");
    FenceOpen(s, tag, body + "\n```");
    assert s[h..n] == body + "\n" && s[n..] == "```";
    FenceBodyKept(s, h, n);
    FenceClose(s, n);
    var s1 := RemoveAll(s, TaggedTicks, 0);
    assert s1 == body + "\n";
    CleanCodeRemovesFences(s);
    TrimDropsNewline(body);
  }

  /** A trimmed body followed by the newline before the closing fence trims back to the body. */
  lemma TrimDropsNewline(body: string)
    requires IsTrimmed(body)
    ensures Trim(body + "\n") == body
  {
    assert body + "\n" == "" + body + "\n";
    assert AllSpace("") && IsSpace('\n');
    TrimIgnoresPadding("", body, "\n");
    TrimOfTrimmed(body);
  }

  /** A run of `cls` characters from `i` to `j`, followed by a character outside `cls`, ends at `j`. */
  lemma {:induction false} RunOver(s: string, i: nat, j: nat, cls: CharClass)
    requires i <= j < |s|
    requires forall k :: i <= k < j ==> InClass(s[k], cls)
    requires !InClass(s[j], cls)
    ensures RunEnd(s, i, cls) == j
    decreases j - i
  {
    if i < j {
      RunOver(s, i + 1, j, cls);
    }
  }

  // ------------------------------------------------------------ default export

  /** The alternatives of `(function|class|const|let|var)?`, in the order they are tried. */
  const Keywords: seq<string> := ["function", "class", "const", "let", "var"]

  /** The first keyword that starts at `p`, or the empty string when the optional group matches nothing. */
  function KeywordAt(s: string, p: nat, k: nat): (r: string)
    requires p <= |s|
    ensures r == [] || (r in Keywords && StartsAt(s, p, r))
    decreases |Keywords| - k
  {
    if k >= |Keywords| then []
    else if StartsAt(s, p, Keywords[k]) then Keywords[k]
    else KeywordAt(s, p, k + 1)
  }

  /** A match of the export pattern: where it ends, and what the two groups captured. */
  datatype ExportClause = ExportClause(end: nat, keyword: string, name: string)

  /**
   * `/export\s+default\s+(function|class|const|let|var)?\s*(\w*)?/` at the
   * start of `t`. Every part after the second `\s+` is optional, so the
   * greedy first choice at each step is the match; no backtracking changes it.
   */
  function ExportAtStart(t: string): (r: Option<ExportClause>)
    ensures r.Some? ==> 0 < r.value.end <= |t|
    ensures r.Some? ==> r.value.keyword == [] || r.value.keyword in Keywords
    ensures r.Some? ==> IsWord(r.value.name) && |r.value.name| <= r.value.end &&
                        t[r.value.end - |r.value.name|..r.value.end] == r.value.name
    ensures r.Some? ==> r.value.end == |t| || !IsWordChar(t[r.value.end])
  {
    if StartsAt(t, 0, "export") then
      var a := RunEnd(t, 6, Space);
      if a > 6 && StartsAt(t, a, "default") then
        var b := RunEnd(t, a + 7, Space);
        if b > a + 7 then Some(ClauseFrom(t, b)) else None
      else None
    else None
  }

  /**
   * The pattern at `i`: it looks only at the text from `i` on, and the clause
   * it finds captures a keyword and a name that ends where the word does.
   */
  function ExportAt(s: string, i: nat): (r: Option<ExportClause>)
    ensures r.Some? ==> i < r.value.end <= |s|
    ensures r.Some? ==> r.value.keyword == [] || r.value.keyword in Keywords
    ensures r.Some? ==> IsWord(r.value.name) && |r.value.name| <= r.value.end &&
                        s[r.value.end - |r.value.name|..r.value.end] == r.value.name
    ensures r.Some? ==> r.value.end == |s| || !IsWordChar(s[r.value.end])
  {
    if i <= |s| then
      match ExportAtStart(s[i..])
      case Some(c) =>
        assert s[i..][c.end - |c.name|..c.end] == s[i + c.end - |c.name|..i + c.end];
        Some(c.(end := c.end + i))
      case None => None
    else None
  }

  /** The optional part of the pattern from `b`: a keyword, white space, and the name. */
  function ClauseFrom(s: string, b: nat): (c: ExportClause)
    requires b <= |s|
    ensures b <= c.end <= |s|
    ensures c.keyword == [] || c.keyword in Keywords
    ensures IsWord(c.name) && |c.name| <= c.end && s[c.end - |c.name|..c.end] == c.name
    ensures c.end == |s| || !IsWordChar(s[c.end])
  {
    var keyword := KeywordAt(s, b, 0);
    var d := RunEnd(s, b + |keyword|, Space);
    var e := RunEnd(s, d, Word);
    ExportClause(e, keyword, s[d..e])
  }

  /** Word characters only (`\w*`). */
  predicate IsWord(t: string)
  {
    forall j :: 0 <= j < |t| ==> IsWordChar(t[j])
  }

  /**
   * The mandatory head of the export pattern at `i`: `export`, white space,
   * `default`, and white space again.
   */
  predicate ExportHeadAt(s: string, i: nat)
  {
    i <= |s| && HeadFrom(s[i..])
  }

  /** The head at the start of `t`. */
  predicate HeadFrom(t: string)
  {
    StartsAt(t, 0, "export") &&
    exists a :: 6 < a && a + 7 < |t| && StartsAt(t, a, "default") && IsSpace(t[a + 7]) &&
      forall k :: 6 <= k < a ==> IsSpace(t[k])
  }

  /** The head, as the greedy runs of the pattern find it. */
  lemma ExportHeadRun(t: string)
    ensures HeadFrom(t) <==>
      StartsAt(t, 0, "export") &&
      var a := RunEnd(t, 6, Space);
      a > 6 && StartsAt(t, a, "default") && RunEnd(t, a + 7, Space) > a + 7
  {
    if StartsAt(t, 0, "export") {
      var a := RunEnd(t, 6, Space);
      if HeadFrom(t) {
        var w :| 6 < w && w + 7 < |t| && StartsAt(t, w, "default") && IsSpace(t[w + 7]) &&
          forall k :: 6 <= k < w ==> IsSpace(t[k]);
        CharAt(t, w, "default", 0);
        RunOver(t, 6, w, Space);
      }
      if a > 6 && StartsAt(t, a, "default") && RunEnd(t, a + 7, Space) > a + 7 {
        assert InClass(t[a + 7], Space);
      }
    }
  }

  /** The first export clause of the code starts at `i`. */
  predicate FirstExportAt(code: string, i: nat)
  {
    ExportHeadAt(code, i) && forall p :: 0 <= p < i ==> !ExportHeadAt(code, p)
  }

  /** The matcher matches exactly where the head of the pattern is. */
  lemma MatcherAgrees(s: string)
    ensures forall p :: 0 <= p <= |s| ==> (IsMatch(ExportMatcher, s, p) <==> ExportHeadAt(s, p))
  {
    forall p | 0 <= p <= |s|
      ensures IsMatch(ExportMatcher, s, p) <==> ExportHeadAt(s, p)
    {
      ExportAtHead(s, p);
    }
  }

  /** The pattern matches at `i` exactly when its head is there: everything after the head is optional. */
  lemma ExportAtHead(s: string, i: nat)
    ensures ExportAt(s, i).Some? <==> ExportHeadAt(s, i)
  {
    if i <= |s| {
      ExportHeadRun(s[i..]);
    }
  }

  function ExportMatcher(s: string, i: nat): Option<nat>
  {
    match ExportAt(s, i)
    case Some(c) => Some(c.end)
    case None => None
  }

  /** The replacement callback: an assignment of the name, then the declaration it came from. */
  function Replacement(keyword: string, name: string): string
  {
    if name != "" then "window.default = " + name + "; " + keyword + " " + name else "window.default ="
  }

  /** The rewrite of the first export clause, when the code mentions `export default` at all. */
  function RewriteExport(code: string): (r: string)
    ensures !Includes(code, "export default") ==> r == code
  {
    if !Includes(code, "export default") then code
    else
      match FirstMatch(code, ExportMatcher, 0)
      case None => code
      case Some(i) =>
        var c := ExportAt(code, i).value;
        code[..i] + Replacement(c.keyword, c.name) + code[c.end..]
  }

  /** The first clause of the code, and only that one, is replaced. */
  lemma RewriteFirstClause(code: string, i: nat)
    requires Includes(code, "export default") && FirstExportAt(code, i)
    ensures ExportAt(code, i).Some?
    ensures var c := ExportAt(code, i).value;
      RewriteExport(code) == code[..i] + Replacement(c.keyword, c.name) + code[c.end..]
  {
    MatcherAgrees(code);
    assert IsMatch(ExportMatcher, code, i);
    assert FirstMatch(code, ExportMatcher, 0) == Some(i);
  }

  /** Code in which no export clause starts is left as it is. */
  lemma RewriteWithoutClause(code: string)
    requires forall p :: 0 <= p <= |code| ==> !ExportHeadAt(code, p)
    ensures RewriteExport(code) == code
  {
    MatcherAgrees(code);
  }

  /** The alternatives before the one that fits are passed over. */
  lemma {:induction false} KeywordSkip(s: string, p: nat, j: nat, k: nat)
    requires j <= k < |Keywords| && p <= |s|
    requires StartsAt(s, p, Keywords[k])
    requires forall t :: j <= t < k ==> !StartsAt(s, p, Keywords[t])
    ensures KeywordAt(s, p, j) == Keywords[k]
    decreases k - j
  {
    if j < k {
      KeywordSkip(s, p, j + 1, k);
    }
  }

  /** A keyword that starts the declaration is the one the group captures. */
  lemma KeywordFound(s: string, p: nat, k: nat)
    requires k < |Keywords| && p <= |s| && StartsAt(s, p, Keywords[k])
    ensures KeywordAt(s, p, 0) == Keywords[k]
  {
    var w := Keywords[k];
    CharAt(s, p, w, 0);
    if k >= 1 {
      DiffersAt(s, p, "function", 0);
    }
    if k == 2 {
      CharAt(s, p, w, 1);
      DiffersAt(s, p, "class", 1);
    } else if k > 2 {
      DiffersAt(s, p, "class", 0);
    }
    if k >= 3 {
      DiffersAt(s, p, "const", 0);
    }
    if k >= 4 {
      DiffersAt(s, p, "let", 0);
    }
    KeywordSkip(s, p, 0, k);
  }

  /** `export`, white space, `default`, white space: the fixed head of the pattern, ending at 15. */
  predicate HeadAt(s: string)
  {
    |s| >= 15 && StartsAt(s, 0, "export") && RunEnd(s, 6, Space) == 7 &&
    StartsAt(s, 7, "default") && RunEnd(s, 14, Space) == 15 && StartsAt(s, 0, "export default")
  }

  /** The head written with single spaces, followed by a declaration. */
  lemma ExportHead(tail: string)
    requires tail != [] && !IsSpace(tail[0])
    ensures HeadAt("export default " + tail) && ("export default " + tail)[15..] == tail
  {
    var s := "export default " + tail;
    assert s[..6] == "export" && s[7..14] == "default" && s[..14] == "export default";
    assert s[6] == ' ' && s[7] == 'd' && s[14] == ' ' && s[15] == tail[0];
    assert s[15..] == tail;
  }

  /** Every keyword starts with a letter. */
  lemma KeywordStartsWord(k: nat)
    requires k < |Keywords|
    ensures Keywords[k] != [] && !IsSpace(Keywords[k][0])
  {
    assert Keywords[k][0] in "fclv";
  }

  /** The declaration after the head starts with its keyword, which the group captures. */
  lemma DeclarationKeyword(s: string, k: nat, more: string)
    requires k < |Keywords| && |s| >= 15 && s[15..] == Keywords[k] + more
    ensures KeywordAt(s, 15, 0) == Keywords[k] && s[15 + |Keywords[k]|..] == more
  {
    var w := Keywords[k];
    assert s[15..15 + |w|] == (w + more)[..|w|] == w;
    assert s[15 + |w|..] == (w + more)[|w|..] == more;
    KeywordFound(s, 15, k);
  }

  /** After the keyword: one space, then the name, which ends where a non-word character or the text does. */
  lemma DeclarationName(s: string, c: nat, name: string, rest: string)
    requires c <= |s| && s[c..] == " " + name + rest
    requires name != [] && forall j :: 0 <= j < |name| ==> IsWordChar(name[j])
    requires rest == [] || !IsWordChar(rest[0])
    ensures c + 1 + |name| <= |s|
    ensures RunEnd(s, c, Space) == c + 1 && RunEnd(s, c + 1, Word) == c + 1 + |name|
    ensures s[c + 1..c + 1 + |name|] == name && s[c + 1 + |name|..] == rest
  {
    var tail := s[c..];
    assert s[c] == tail[0] == ' ' && s[c + 1] == tail[1] == name[0];
    assert s[c + 1..c + 1 + |name|] == tail[1..1 + |name|] == name;
    assert s[c + 1 + |name|..] == tail[1 + |name|..] == rest;
    if rest == [] {
      RunToEnd(s, c + 1);
    } else {
      assert s[c + 1 + |name|] == rest[0];
      RunOver(s, c + 1, c + 1 + |name|, Word);
    }
  }

  /** The export pattern's steps, put together: the clause it matches at the start. */
  lemma ExportOfParts(s: string, w: string, name: string, e: nat)
    requires HeadAt(s)
    requires KeywordAt(s, 15, 0) == w && 16 + |w| <= e <= |s|
    requires RunEnd(s, 15 + |w|, Space) == 16 + |w| && RunEnd(s, 16 + |w|, Word) == e && s[16 + |w|..e] == name
    ensures ExportAtStart(s) == Some(ExportClause(e, w, name))
  {
  }

  /** No `export` starts inside `pre`, not even one that runs on into an `export` after it. */
  predicate NoExportIn(pre: string)
  {
    forall p :: 0 <= p < |pre| ==> !StartsAt(pre + "export", p, "export")
  }

  /** Text in front of a clause moves where it ends and changes nothing else about it. */
  lemma ShiftExportAt(pre: string, t: string)
    ensures ExportAtStart(t).None? ==> ExportAt(pre + t, |pre|).None?
    ensures ExportAtStart(t).Some? ==>
      ExportAt(pre + t, |pre|) == Some(ExportAtStart(t).value.(end := ExportAtStart(t).value.end + |pre|))
  {
    assert (pre + t)[|pre|..] == t;
  }

  lemma IncludesAt(s: string, i: nat, lit: string)
    requires StartsAt(s, i, lit)
    ensures Includes(s, lit)
  {
  }

  /** No clause starts inside `pre` when nothing there starts an `export`. */
  lemma NoHeadBefore(pre: string, t: string)
    requires NoExportIn(pre) && StartsAt(t, 0, "export")
    ensures forall p :: 0 <= p < |pre| ==> !ExportHeadAt(pre + t, p)
  {
    var s, h := pre + t, |pre|;
    assert s[..h + 6] == pre + "export" by {
      assert t[..6] == "export";
    }
    forall p | 0 <= p < h
      ensures !ExportHeadAt(s, p)
    {
      assert !StartsAt(pre + "export", p, "export");
      assert s[p..][..6] == s[..h + 6][p..p + 6];
    }
  }

  /** Where nothing before it starts an `export`, a clause after `pre` is the one rewritten. */
  lemma RewriteAfter(pre: string, t: string, w: string, name: string, e: nat)
    requires NoExportIn(pre)
    requires ExportAtStart(t) == Some(ExportClause(e, w, name)) && StartsAt(t, 0, "export default")
    ensures RewriteExport(pre + t) == pre + Replacement(w, name) + t[e..]
  {
    var s := pre + t;
    var h := |pre|;
    ShiftExportAt(pre, t);
    ExportAtHead(s, h);
    NoHeadBefore(pre, t);
    assert s[h..h + 14] == t[0..14];
    IncludesAt(s, h, "export default");
    RewriteFirstClause(s, h);
    assert s[..h] == pre && s[h + e..] == t[e..];
  }

  lemma Regroup(head: string, w: string, name: string, rest: string)
    ensures head + w + " " + name + rest == head + (w + (" " + name + rest))
  {
    assert head + w + " " + name + rest == (head + w) + (" " + name + rest);
  }

  /** The clause the export pattern matches on a default-exported declaration, and what follows it. */
  lemma ExportOfDeclaration(s: string, k: nat, name: string, rest: string) returns (e: nat)
    requires k < |Keywords|
    requires name != [] && forall j :: 0 <= j < |name| ==> IsWordChar(name[j])
    requires rest == [] || !IsWordChar(rest[0])
    requires HeadAt(s) && s[15..] == Keywords[k] + (" " + name + rest)
    ensures 0 < e <= |s| && s[e..] == rest
    ensures ExportAtStart(s) == Some(ExportClause(e, Keywords[k], name))
  {
    var w := Keywords[k];
    DeclarationKeyword(s, k, " " + name + rest);
    var c := 15 + |w|;
    DeclarationName(s, c, name, rest);
    e := c + 1 + |name|;
    ExportOfParts(s, w, name, e);
  }

  /**
   * A default-exported declaration, after any code that starts no `export`
   * of its own, keeps its keyword and name and is preceded by the
   * assignment of that name.
   */
  lemma RewriteNamedDeclaration(pre: string, k: nat, name: string, rest: string)
    requires NoExportIn(pre)
    requires k < |Keywords|
    requires name != [] && forall j :: 0 <= j < |name| ==> IsWordChar(name[j])
    requires rest == [] || !IsWordChar(rest[0])
    ensures RewriteExport(pre + ("export default " + Keywords[k] + " " + name + rest)) ==
      pre + ("window.default = " + name + "; " + Keywords[k] + " " + name + rest)
  {
    var s := "export default " + Keywords[k] + " " + name + rest;
    var e := DeclarationClause(k, name, rest);
    RewriteAfter(pre, s, Keywords[k], name, e);
  }

  /** The clause of a default-exported declaration written with single spaces. */
  lemma DeclarationClause(k: nat, name: string, rest: string) returns (e: nat)
    requires k < |Keywords|
    requires name != [] && forall j :: 0 <= j < |name| ==> IsWordChar(name[j])
    requires rest == [] || !IsWordChar(rest[0])
    ensures var s := "export default " + Keywords[k] + " " + name + rest;
      ExportAtStart(s) == Some(ExportClause(e, Keywords[k], name)) && StartsAt(s, 0, "export default") &&
      e <= |s| && s[e..] == rest
  {
    var w := Keywords[k];
    var tail := w + (" " + name + rest);
    var s := "export default " + w + " " + name + rest;
    Regroup("export default ", w, name, rest);
    KeywordStartsWord(k);
    assert tail[0] == w[0];
    ExportHead(tail);
    e := ExportOfDeclaration(s, k, name, rest);
    assert s[..14] == "export default";
  }

  /** No keyword starts at a character that is not a word character. */
  lemma {:induction false} NoKeywordAt(s: string, p: nat, k: nat)
    requires p < |s| && !IsWordChar(s[p])
    ensures KeywordAt(s, p, k) == []
    decreases |Keywords| - k
  {
    if k < |Keywords| {
      KeywordStartsWord(k);
      DiffersAt(s, p, Keywords[k], 0);
      NoKeywordAt(s, p, k + 1);
    }
  }

  /**
   * A default export of an expression (a function literal, an object, a
   * parenthesised value) captures no keyword and no name: only the head is
   * replaced, by `window.default =`.
   */
  lemma RewriteNameless(pre: string, rest: string)
    requires NoExportIn(pre)
    requires rest != [] && !IsSpace(rest[0]) && !IsWordChar(rest[0])
    ensures RewriteExport(pre + "export default " + rest) == pre + "window.default =" + rest
  {
    var t := "export default " + rest;
    ExportHead(rest);
    assert t[15] == rest[0];
    NoKeywordAt(t, 15, 0);
    assert RunEnd(t, 15, Space) == 15;
    assert RunEnd(t, 15, Word) == 15;
    assert ExportAtStart(t) == Some(ExportClause(15, [], []));
    assert t[..14] == "export default";
    RewriteAfter(pre, t, [], [], 15);
    assert pre + t == pre + "export default " + rest;
  }

  /** A run of word characters up to the end of the text ends there. */
  lemma {:induction false} RunToEnd(s: string, i: nat)
    requires i <= |s|
    requires forall k :: i <= k < |s| ==> IsWordChar(s[k])
    ensures RunEnd(s, i, Word) == |s|
    decreases |s| - i
  {
    if i < |s| {
      RunToEnd(s, i + 1);
    }
  }

  // ------------------------------------------------------------ rendering

  /** What the component shows; a frame runs `Prepare` of the code it is given. */
  datatype View = Building | Placeholder | ErrorPanel(message: string) | Frame(code: string)

  /**
   * The script the frame runs: the code with its fences removed, trimmed,
   * and its default export rewritten into an assignment to `window.default`.
   */
  function Prepare(code: string): (r: string)
    ensures NoTicks(r)
    ensures !Includes(CleanCode(code), "export default") ==> r == CleanCode(code)
  {
    CleanCodeRemovesFences(code);
    RewriteKeepsNoTicks(CleanCode(code));
    RewriteExport(CleanCode(code))
  }

  /** Rewriting the export brings in no backtick, so it cannot create a fence marker. */
  lemma RewriteKeepsNoTicks(code: string)
    requires NoTicks(code)
    ensures NoTicks(RewriteExport(code))
  {
    if Includes(code, "export default") {
      match FirstMatch(code, ExportMatcher, 0)
      case None =>
      case Some(i) =>
        var c := ExportAt(code, i).value;
        NoTicksInfix(code, 0, code[..i]);
        NoTicksInfix(code, c.end, code[c.end..]);
        ReplacementHasNoBacktick(c.keyword, c.name);
        NoTicksJoin(code[..i], Replacement(c.keyword, c.name), code[c.end..]);
    }
  }

  /** The replacement text is never empty and, built from a keyword and a word, has no backtick. */
  lemma ReplacementHasNoBacktick(keyword: string, name: string)
    requires keyword == [] || keyword in Keywords
    requires IsWord(name)
    ensures Replacement(keyword, name) != [] && '`' !in Replacement(keyword, name)
  {
    forall j | 0 <= j < |name|
      ensures name[j] != '`'
    {
      assert IsWordChar(name[j]);
    }
    assert '`' !in keyword by {
      if keyword != [] {
        var k :| 0 <= k < |Keywords| && Keywords[k] == keyword;
        assert '`' !in Keywords[k];
      }
    }
  }

  /** Joining two texts without fence markers through a non-empty middle without backticks creates none. */
  lemma NoTicksJoin(a: string, m: string, b: string)
    requires NoTicks(a) && NoTicks(b) && m != [] && '`' !in m
    ensures NoTicks(a + m + b)
  {
    var x := a + m + b;
    forall k | 0 <= k <= |x|
      ensures !TicksHere(x, k)
    {
      if k + 3 <= |a| {
        assert !TicksHere(a, k);
        assert x[k] == a[k] && x[k + 1] == a[k + 1] && x[k + 2] == a[k + 2];
      } else if k + 3 <= |x| && k >= |a| + |m| {
        var j := k - |a| - |m|;
        assert !TicksHere(b, j);
        assert x[k] == b[j] && x[k + 1] == b[j + 1] && x[k + 2] == b[j + 2];
      } else if k + 3 <= |x| {
        var q := if k >= |a| then k else |a|;
        assert x[q] == m[q - |a|];
        assert m[q - |a|] in m;
      }
    }
  }

  /**
   * A render: the state follows the code to show, then the spinner while
   * generating without code, the placeholder without code, the error panel
   * while a preview error is set, and otherwise the frame with that code.
   */
  function Render(isGenerating: bool, generatedCode: string, streamingCode: string, st: PreviewState)
    : (r: (View, PreviewState))
    ensures r.1 == Follow(st, CodeToRender(generatedCode, streamingCode))
    ensures isGenerating && CodeToRender(generatedCode, streamingCode) == "" ==> r.0 == Building
    ensures !isGenerating && CodeToRender(generatedCode, streamingCode) == "" ==> r.0 == Placeholder
    ensures CodeToRender(generatedCode, streamingCode) != "" && r.1.previewError.Some? && r.1.previewError.value != "" ==>
      r.0 == ErrorPanel(r.1.previewError.value)
    ensures CodeToRender(generatedCode, streamingCode) != "" && (r.1.previewError.None? || r.1.previewError.value == "") ==>
      r.0 == Frame(CodeToRender(generatedCode, streamingCode))
    ensures CodeToRender(generatedCode, streamingCode) == "" ==> r.0 == Building || r.0 == Placeholder
    ensures r.0.Frame? ==> r.0.code == CodeToRender(generatedCode, streamingCode)
    ensures r.0.Frame? ==> r.1.previewError.None? || r.1.previewError == Some("")
  {
    var code := CodeToRender(generatedCode, streamingCode);
    var next := Follow(st, code);
    (Shown(isGenerating, code, next.previewError), next)
  }

  /** The branch a render takes, from the code to show and the preview error after the update. */
  function Shown(isGenerating: bool, code: string, previewError: Option<string>): (v: View)
    ensures isGenerating && code == "" ==> v == Building
    ensures !isGenerating && code == "" ==> v == Placeholder
    ensures code != "" && previewError.Some? && previewError.value != "" ==> v == ErrorPanel(previewError.value)
    ensures code != "" && (previewError.None? || previewError.value == "") ==> v == Frame(code)
    ensures code == "" ==> v == Building || v == Placeholder
    ensures v.Frame? ==> previewError.None? || previewError == Some("")
  {
    if isGenerating && code == "" then Building
    else if code == "" then Placeholder
    else if previewError.Some? && previewError.value != "" then ErrorPanel(previewError.value)
    else Frame(code)
  }

  /** New code always reaches the frame: a change of code clears any preview error. */
  lemma NewCodeIsShown(isGenerating: bool, generatedCode: string, streamingCode: string, st: PreviewState)
    requires CodeToRender(generatedCode, streamingCode) != "" && CodeToRender(generatedCode, streamingCode) != st.code
    ensures Render(isGenerating, generatedCode, streamingCode, st).0 == Frame(CodeToRender(generatedCode, streamingCode))
  {
  }
}
