/**
 * The text rules for importing and exporting screenplays as Markdown files:
 * file validation, file-name cleaning and checking, conflict detection by
 * normalised content, previews and a basic structure check.
 */
module ScreenplayFileManagement {
  import opened Wrappers
  import opened JsText

  const MaxFileSize: nat := 10 * 1024 * 1024
  const MaxFilenameLength: nat := 200
  const DefaultPreviewLength: int := 200

  datatype FileCheck = FileOk | FileRejected(error: string)

  /** The characters `[<>:"/\\|?*]` matches. */
  predicate IsInvalidChar(c: char) {
    c == '<' || c == '>' || c == ':' || c == '"' || c == '/' || c == '\\' || c == '|' || c == '?' || c == '*'
  }

  /** A JavaScript line terminator, where `$` matches in multiline mode. */
  predicate IsLineTerminator(c: char) {
    c == '\n' || c == '\r' || c == '\U{2028}' || c == '\U{2029}'
  }

  predicate NoneOf(s: string, p: char -> bool) {
    forall i :: 0 <= i < |s| ==> !p(s[i])
  }

  /** `filename.toLowerCase().endsWith('.md')`. */
  predicate HasMdExtension(filename: string) {
    EndsWith(ToLower(filename), ".md")
  }

  /** `validateMarkdownFile(filename, content)`. */
  function ValidateMarkdownFile(filename: string, content: string): FileCheck {
    if !HasMdExtension(filename) then FileRejected("Arquivo deve ter extensão .md")
    else if |Trim(content)| == 0 then FileRejected("Arquivo não pode estar vazio")
    else if |content| > MaxFileSize then FileRejected("Arquivo muito grande (máximo 10MB)")
    else FileOk
  }

  // ------------------------------------------------------- sanitizeFilename

  /** `.replace(/[<>:"/\\|?*]/g, '_')`. */
  function ReplaceInvalid(s: string): (r: string)
    ensures |r| == |s|
    ensures forall i :: 0 <= i < |s| ==> r[i] == (if IsInvalidChar(s[i]) then '_' else s[i])
  {
    seq(|s|, i requires 0 <= i < |s| => if IsInvalidChar(s[i]) then '_' else s[i])
  }

  /** The text after the leading run of characters satisfying `p`. */
  function DropRun(s: string, p: char -> bool): (r: string)
    ensures |r| < |s| || (r == s && (s == [] || !p(s[0])))
    ensures r == [] || !p(r[0])
    ensures r == s[|s| - |r|..]
  {
    if s != [] && p(s[0]) then DropRun(s[1..], p) else s
  }

  /** Every maximal run of characters satisfying `p` replaced by the single character `c`. */
  function CollapseRuns(s: string, p: char -> bool, c: char): (r: string)
    ensures r == [] <==> s == []
    ensures r != [] ==> r[0] == (if p(s[0]) then c else s[0])
    decreases |s|
  {
    if s == [] then []
    else if p(s[0]) then [c] + CollapseRuns(DropRun(s, p), p, c)
    else [s[0]] + CollapseRuns(s[1..], p, c)
  }

  /** `.replace(/\s+/g, '_')`. */
  function SpacesToUnderscore(s: string): string {
    CollapseRuns(s, IsSpace, '_')
  }

  /** `.replace(/_{2,}/g, '_')`: a run of two or more underscores becomes one, a single one stays. */
  function SquashUnderscores(s: string): string {
    CollapseRuns(s, (ch: char) => ch == '_', '_')
  }

  /** `sanitizeFilename(filename)`. */
  function SanitizeFilename(filename: string): string {
    Substring(SquashUnderscores(SpacesToUnderscore(ReplaceInvalid(filename))), 0, MaxFilenameLength)
  }

  predicate NoDoubleUnderscore(s: string) {
    forall i :: 0 <= i < |s| - 1 ==> !(s[i] == '_' && s[i + 1] == '_')
  }

  /** Collapsing keeps out anything that was out and that the replacement is not. */
  lemma {:induction false} CollapseKeepsOut(s: string, p: char -> bool, c: char, q: char -> bool)
    requires NoneOf(s, q) && !q(c)
    ensures NoneOf(CollapseRuns(s, p, c), q)
    decreases |s|
  {
    if s != [] {
      if p(s[0]) {
        var rest := DropRun(s, p);
        assert NoneOf(rest, q) by {
          forall i | 0 <= i < |rest| ensures !q(rest[i]) {
            assert rest[i] == s[|s| - |rest| + i];
          }
        }
        CollapseKeepsOut(rest, p, c, q);
      } else {
        assert NoneOf(s[1..], q) by {
          forall i | 0 <= i < |s[1..]| ensures !q(s[1..][i]) {
            assert s[1..][i] == s[i + 1];
          }
        }
        CollapseKeepsOut(s[1..], p, c, q);
      }
    }
  }

  /** After collapsing, no two neighbours both satisfy `p` when the replacement does not... */
  lemma {:induction false} CollapseRemovesRuns(s: string, p: char -> bool, c: char)
    requires !p(c) || c == '_'
    ensures !p(c) ==> NoneOf(CollapseRuns(s, p, c), p)
    decreases |s|
  {
    if !p(c) {
      if s != [] {
        if p(s[0]) {
          CollapseRemovesRuns(DropRun(s, p), p, c);
        } else {
          CollapseRemovesRuns(s[1..], p, c);
        }
      }
    }
  }

  /** ...and when it does, each replacement is followed by a character outside the run. */
  lemma {:induction false} CollapseNoRepeat(s: string, c: char)
    ensures NoDoubleUnderscore(CollapseRuns(s, (ch: char) => ch == '_', c))
    decreases |s|
  {
    var p := (ch: char) => ch == '_';
    var r := CollapseRuns(s, p, c);
    if s != [] {
      if p(s[0]) {
        var rest := DropRun(s, p);
        CollapseNoRepeat(rest, c);
        var tail := CollapseRuns(rest, p, c);
        assert r == [c] + tail;
        assert tail != [] ==> tail[0] == rest[0] && rest[0] != '_';
        forall i | 0 <= i < |r| - 1 ensures !(r[i] == '_' && r[i + 1] == '_') {
          if i > 0 {
            assert r[i] == tail[i - 1] && r[i + 1] == tail[i];
          }
        }
      } else {
        CollapseNoRepeat(s[1..], c);
        var tail := CollapseRuns(s[1..], p, c);
        assert r == [s[0]] + tail;
        forall i | 0 <= i < |r| - 1 ensures !(r[i] == '_' && r[i + 1] == '_') {
          if i > 0 {
            assert r[i] == tail[i - 1] && r[i + 1] == tail[i];
          }
        }
      }
    }
  }

  /**
   * The cleaned name has no character `[<>:"/\\|?*]` matches, no white space,
   * no two underscores in a row and at most 200 characters.
   */
  lemma SanitizeFilenameFacts(filename: string)
    ensures var r := SanitizeFilename(filename);
      |r| <= MaxFilenameLength && NoneOf(r, IsInvalidChar) && NoneOf(r, IsSpace) && NoDoubleUnderscore(r)
  {
    var a := ReplaceInvalid(filename);
    var b := SpacesToUnderscore(a);
    var c := SquashUnderscores(b);
    var under := (ch: char) => ch == '_';
    CollapseKeepsOut(a, IsSpace, '_', IsInvalidChar);
    CollapseRemovesRuns(a, IsSpace, '_');
    CollapseKeepsOut(b, under, '_', IsInvalidChar);
    CollapseKeepsOut(b, under, '_', IsSpace);
    CollapseNoRepeat(b, '_');
    var r := SanitizeFilename(filename);
    assert r == c[..|r|];
  }

  // ------------------------------------------- file names and their checks

  /** `isValidFilename(filename)`. */
  predicate IsValidFilename(filename: string) {
    |Trim(filename)| != 0 && NoneOf(filename, IsInvalidChar) && HasMdExtension(filename)
  }

  /** `extractBaseName(filename)`: a final `.md`, in any case, removed. */
  function ExtractBaseName(filename: string): string {
    if HasMdExtension(filename) then filename[..|filename| - 3] else filename
  }

  /** `generateFilename(title)`. */
  function GenerateFilename(title: string): string {
    SanitizeFilename(title) + ".md"
  }

  /** `exportToFile`'s file name: the given one unless it is absent or empty. */
  function ExportFilename(given: Option<string>, screenplayName: string): string {
    if Truthy(given) then given.value else GenerateFilename(screenplayName)
  }

  lemma LowerOfMd(f: string)
    requires EndsWith(f, ".md")
    ensures HasMdExtension(f)
  {
    var t := ToLower(f);
    var n := |f|;
    assert f[n - 3] == '.' && f[n - 2] == 'm' && f[n - 1] == 'd';
    assert t[n - 3] == LowerChar(f[n - 3]) && t[n - 2] == LowerChar(f[n - 2]) && t[n - 1] == LowerChar(f[n - 1]);
    assert t[n - 3..] == ".md";
  }

  /** A name free of invalid characters, with `.md` appended, is valid and gives the name back. */
  lemma MdNameRoundTrip(base: string)
    requires NoneOf(base, IsInvalidChar)
    ensures IsValidFilename(base + ".md")
    ensures ExtractBaseName(base + ".md") == base
  {
    var f := base + ".md";
    assert NoneOf(f, IsInvalidChar) by {
      forall i | 0 <= i < |f| ensures !IsInvalidChar(f[i]) {
        if i < |base| {
          assert f[i] == base[i];
        }
      }
    }
    assert f[|f| - 3..] == ".md";
    LowerOfMd(f);
    assert f[..|f| - 3] == base;
    assert !IsSpace(f[|f| - 1]);
    TrimEmptyIffAllSpace(f);
  }

  /** A generated file name is valid, and its base name is the cleaned title. */
  lemma GeneratedFilenameRoundTrip(title: string)
    ensures IsValidFilename(GenerateFilename(title))
    ensures ExtractBaseName(GenerateFilename(title)) == SanitizeFilename(title)
  {
    SanitizeFilenameFacts(title);
    MdNameRoundTrip(SanitizeFilename(title));
  }

  /** A valid file name is the base name followed by `.md` in some case. */
  lemma ValidFilenameSplits(filename: string)
    requires IsValidFilename(filename)
    ensures |filename| >= 3 && filename == ExtractBaseName(filename) + filename[|filename| - 3..]
    ensures ToLower(filename[|filename| - 3..]) == ".md"
  {
    MdExtensionSplits(filename);
  }

  /** A name with the `.md` extension is its base name followed by three characters that lower-case to `.md`. */
  lemma MdExtensionSplits(filename: string)
    requires HasMdExtension(filename)
    ensures |filename| >= 3 && filename == ExtractBaseName(filename) + filename[|filename| - 3..]
    ensures ToLower(filename[|filename| - 3..]) == ".md"
  {
    var t := ToLower(filename);
    var tail := filename[|filename| - 3..];
    assert t[|t| - 3..] == ".md";
    assert ToLower(tail) == t[|t| - 3..] by {
      forall i | 0 <= i < 3 ensures ToLower(tail)[i] == t[|t| - 3..][i] {
        assert tail[i] == filename[|filename| - 3 + i];
      }
    }
  }

  /**
   * `validateMarkdownFile` accepts exactly a `.md` name with content that is
   * not blank and at most 10MB, and reports the first check that fails.
   */
  lemma FileChecksInOrder(filename: string, content: string)
    ensures ValidateMarkdownFile(filename, content) == FileOk <==>
      HasMdExtension(filename) && !AllSpace(content) && |content| <= MaxFileSize
    ensures !HasMdExtension(filename) ==> ValidateMarkdownFile(filename, content) == FileRejected("Arquivo deve ter extensão .md")
    ensures HasMdExtension(filename) && AllSpace(content) ==>
      ValidateMarkdownFile(filename, content) == FileRejected("Arquivo não pode estar vazio")
    ensures HasMdExtension(filename) && !AllSpace(content) && |content| > MaxFileSize ==>
      ValidateMarkdownFile(filename, content) == FileRejected("Arquivo muito grande (máximo 10MB)")
  {
    TrimEmptyIffAllSpace(content);
  }

  // ------------------------------------------------------ conflict detection

  /** `.replace(/\r\n/g, '\n')`: non-overlapping, left to right. */
  function CrlfToLf(s: string): (r: string)
    ensures |r| <= |s|
  {
    if |s| >= 2 && s[0] == '\r' && s[1] == '\n' then "\n" + CrlfToLf(s[2..])
    else if s == [] then []
    else [s[0]] + CrlfToLf(s[1..])
  }

  /** `.replace(/\t/g, '  ')`. */
  function TabsToSpaces(s: string): (r: string)
    ensures !Has(r, '\t')
  {
    if s == [] then []
    else
      var rest := TabsToSpaces(s[1..]);
      if s[0] == '\t' then "  " + rest else [s[0]] + rest
  }

  /** The length of the run of spaces at the start of `s`. */
  function SpaceRun(s: string): (n: nat)
    ensures n <= |s| && (forall i :: 0 <= i < n ==> s[i] == ' ') && (n < |s| ==> s[n] != ' ')
  {
    if s != [] && s[0] == ' ' then 1 + SpaceRun(s[1..]) else 0
  }

  /** `.replace(/[ ]+$/gm, '')`: a run of spaces is dropped when a line ends right after it. */
  function StripLineEnds(s: string): (r: string)
    decreases |s|
  {
    if s == [] then []
    else if s[0] == ' ' then
      var n := SpaceRun(s);
      if n == |s| || IsLineTerminator(s[n]) then StripLineEnds(s[n..]) else s[..n] + StripLineEnds(s[n..])
    else [s[0]] + StripLineEnds(s[1..])
  }

  /** `normalizeContent(content)`. */
  function Normalize(content: string): string {
    StripLineEnds(TabsToSpaces(CrlfToLf(Trim(content))))
  }

  /** `detectConflict(diskContent, dbScreenplay)` on the stored content. */
  predicate DetectConflict(diskContent: string, dbContent: string) {
    Normalize(diskContent) != Normalize(dbContent)
  }

  predicate NoSpaceAtLineEnd(s: string) {
    (s == [] || s[|s| - 1] != ' ') && forall i :: 0 <= i < |s| - 1 && IsLineTerminator(s[i + 1]) ==> s[i] != ' '
  }

  lemma StripLineEndsFacts(s: string)
    ensures NoSpaceAtLineEnd(StripLineEnds(s))
    ensures !Has(s, '\t') ==> !Has(StripLineEnds(s), '\t')
  {
    StripLineEndsNoSpace(s);
    if !Has(s, '\t') {
      StripLineEndsKeepsOut(s, '\t');
    }
  }

  /** Stripping leaves no space before a line end or at the end of the text. */
  lemma {:induction false} StripLineEndsNoSpace(s: string)
    ensures NoSpaceAtLineEnd(StripLineEnds(s))
    decreases |s|
  {
    var r := StripLineEnds(s);
    if s != [] {
      if s[0] == ' ' {
        var n := SpaceRun(s);
        var rest := StripLineEnds(s[n..]);
        if n < |s| {
          StripLineEndsNoSpace(s[n..]);
        }
        if n == |s| {
          assert r == [];
        } else if IsLineTerminator(s[n]) {
          assert r == rest;
        } else {
          assert r == s[..n] + rest;
          StripFirstNonSpace(s[n..]);
          forall i | 0 <= i < |r| - 1 && IsLineTerminator(r[i + 1]) ensures r[i] != ' ' {
            if i >= n {
              assert r[i] == rest[i - n] && r[i + 1] == rest[i - n + 1];
            }
          }
        }
      } else {
        StripLineEndsNoSpace(s[1..]);
        var rest := StripLineEnds(s[1..]);
        assert r == [s[0]] + rest;
        forall i | 0 <= i < |r| - 1 && IsLineTerminator(r[i + 1]) ensures r[i] != ' ' {
          if i > 0 {
            assert r[i] == rest[i - 1] && r[i + 1] == rest[i];
          }
        }
      }
    }
  }

  /** Stripping only removes characters: a character absent from `s` is absent from the result. */
  lemma {:induction false} StripLineEndsKeepsOut(s: string, c: char)
    requires !Has(s, c)
    ensures !Has(StripLineEnds(s), c)
    decreases |s|
  {
    if s != [] {
      var n := if s[0] == ' ' then SpaceRun(s) else 1;
      HasSuffix(s, n, c);
      StripLineEndsKeepsOut(s[n..], c);
      var rest := StripLineEnds(s[n..]);
      var r := StripLineEnds(s);
      assert r == rest || r == s[..n] + rest;
      forall i | 0 <= i < |r| ensures r[i] != c {
        if r != rest {
          if i < n { assert r[i] == s[i]; } else { assert r[i] == rest[i - n]; }
        }
      }
    }
  }

  /** A character absent from `s` is absent from each of its suffixes. */
  lemma HasSuffix(s: string, n: nat, c: char)
    requires n <= |s| && !Has(s, c)
    ensures !Has(s[n..], c)
  {
    forall j | 0 <= j < |s[n..]| ensures s[n..][j] != c {
      assert s[n..][j] == s[n + j];
    }
  }

  lemma StripFirstNonSpace(s: string)
    requires s != [] && s[0] != ' '
    ensures StripLineEnds(s) != [] && StripLineEnds(s)[0] == s[0]
  {
  }

  /** Normalised content has no tab and no space at the end of a line or of the text. */
  lemma NormalizedShape(content: string)
    ensures !Has(Normalize(content), '\t') && NoSpaceAtLineEnd(Normalize(content))
  {
    StripLineEndsFacts(TabsToSpaces(CrlfToLf(Trim(content))));
  }

  /** A file never conflicts with itself, and conflict is symmetric. */
  lemma ConflictIsInequality(a: string, b: string)
    ensures !DetectConflict(a, a)
    ensures DetectConflict(a, b) == DetectConflict(b, a)
    ensures Trim(a) == Trim(b) ==> !DetectConflict(a, b)
  {
  }

  // ---------------------------------------------------------------- preview

  /** `createContentPreview(content, maxLength)`. */
  function ContentPreview(content: string, maxLength: int := DefaultPreviewLength): string {
    if |content| <= maxLength then content else Substring(content, 0, maxLength) + "..."
  }

  /** Short content is returned as it is; longer content is cut to the limit and marked with an ellipsis. */
  lemma ContentPreviewFacts(content: string, maxLength: int)
    ensures |content| <= maxLength ==> ContentPreview(content, maxLength) == content
    ensures 0 <= maxLength < |content| ==> ContentPreview(content, maxLength) == content[..maxLength] + "..."
    ensures maxLength < 0 && content != [] ==> ContentPreview(content, maxLength) == "..."
  {
  }

  // ------------------------------------------------------------- structure

  /** `s[i..]` begins with one or more `#` and then a space. */
  predicate HeadingAt(s: string, i: nat)
    requires i <= |s|
  {
    var n := HashRun(s[i..]);
    n > 0 && n < |s| - i && s[i + n] == ' '
  }

  function HashRun(s: string): (n: nat)
    ensures n <= |s| && (forall k :: 0 <= k < n ==> s[k] == '#')
  {
    if s != [] && s[0] == '#' then 1 + HashRun(s[1..]) else 0
  }

  /** `/^#+ /m.test(content)`: a heading at the start of some line. */
  predicate HasHeading(s: string) {
    exists i :: 0 <= i < |s| && (i == 0 || IsLineTerminator(s[i - 1])) && HeadingAt(s, i)
  }

  /** Non-overlapping occurrences of `p` in `s[from..]`, counted left to right as `match(/p/g)` does. */
  function CountFrom(s: string, p: string, from: nat): nat
    requires |p| > 0 && from <= |s|
    decreases |s| - from
  {
    if from + |p| > |s| then 0
    else if s[from..from + |p|] == p then 1 + CountFrom(s, p, from + |p|)
    else CountFrom(s, p, from + 1)
  }

  /** The position of the first `]` in `s[from..]`, or `|s|`. */
  function CloseBracket(s: string, from: nat): (j: nat)
    requires from <= |s|
    ensures from <= j <= |s| && (j < |s| ==> s[j] == ']') && forall k :: from <= k < j ==> s[k] != ']'
    decreases |s| - from
  {
    if from == |s| || s[from] == ']' then from else CloseBracket(s, from + 1)
  }

  /** Where a match of `\[([^\]]+)\]\(\s*\)` starting at `i` ends, if one does. */
  function EmptyLinkAt(s: string, i: nat): (r: Option<nat>)
    requires i <= |s|
    ensures r.Some? ==> i < r.value <= |s|
  {
    if i < |s| && s[i] == '[' then
      var j := CloseBracket(s, i + 1);
      if j > i + 1 && j + 1 < |s| && s[j + 1] == '(' then
        var k := j + 2 + SpacesRun(s[j + 2..]);
        if k < |s| && s[k] == ')' then Some(k + 1) else None
      else None
    else None
  }

  /** The length of the run of `\s` characters at the start of `s`. */
  function SpacesRun(s: string): (n: nat)
    ensures n <= |s| && forall k :: 0 <= k < n ==> IsSpace(s[k])
  {
    if s != [] && IsSpace(s[0]) then 1 + SpacesRun(s[1..]) else 0
  }

  /** The number of empty links `match(/\[([^\]]+)\]\(\s*\)/g)` finds from `from` on. */
  function EmptyLinks(s: string, from: nat): nat
    requires from <= |s|
    decreases |s| - from
  {
    if from == |s| then 0
    else match EmptyLinkAt(s, from)
      case Some(e) => 1 + EmptyLinks(s, e)
      case None => EmptyLinks(s, from + 1)
  }

  datatype StructureCheck = StructureCheck(valid: bool, warnings: seq<string>)

  /** `validateMarkdownStructure(content)`. */
  function ValidateMarkdownStructure(content: string): StructureCheck {
    var w1 := if !HasHeading(content) then ["Conteúdo não possui headings (títulos)"] else [];
    var links := EmptyLinks(content, 0);
    var w2 := if links > 0 then [IntToString(links) + " link(s) vazio(s) detectado(s)"] else [];
    var w3 := if CountFrom(content, "```", 0) % 2 != 0 then ["Bloco de código não fechado detectado"] else [];
    var warnings := w1 + w2 + w3;
    StructureCheck(|warnings| == 0, warnings)
  }

  /** Valid exactly when there is no warning; an odd number of fences always warns. */
  lemma StructureFacts(content: string)
    ensures ValidateMarkdownStructure(content).valid <==> ValidateMarkdownStructure(content).warnings == []
    ensures CountFrom(content, "```", 0) % 2 == 1 ==>
      "Bloco de código não fechado detectado" in ValidateMarkdownStructure(content).warnings
    ensures ValidateMarkdownStructure(content).valid <==>
      HasHeading(content) && EmptyLinks(content, 0) == 0 && CountFrom(content, "```", 0) % 2 == 0
  {
  }

  /** A document that opens with a heading and has no link and no fence passes the structure check. */
  lemma HeadedPlainTextIsValid(title: string, body: string)
    requires !Has(body, '[') && !Has(body, '`')
    requires !Has(title, '[') && !Has(title, '`')
    ensures ValidateMarkdownStructure("# " + title + body).valid
  {
    var s := "# " + title + body;
    assert HashRun(s[0..]) == 1;
    assert HeadingAt(s, 0);
    assert forall k :: 0 <= k < |s| ==> s[k] != '[' && s[k] != '`' by {
      forall k | 0 <= k < |s| ensures s[k] != '[' && s[k] != '`' {
        if k >= 2 && k < 2 + |title| {
          assert s[k] == title[k - 2];
        } else if k >= 2 + |title| {
          assert s[k] == body[k - 2 - |title|];
        }
      }
    }
    NoBracketNoLinks(s, 0);
    NoTickNoFence(s, 0);
  }

  lemma {:induction false} NoBracketNoLinks(s: string, from: nat)
    requires from <= |s| && forall k :: from <= k < |s| ==> s[k] != '['
    ensures EmptyLinks(s, from) == 0
    decreases |s| - from
  {
    if from < |s| {
      NoBracketNoLinks(s, from + 1);
    }
  }

  lemma {:induction false} NoTickNoFence(s: string, from: nat)
    requires from <= |s| && forall k :: from <= k < |s| ==> s[k] != '`'
    ensures CountFrom(s, "```", from) == 0
    decreases |s| - from
  {
    if from + 3 <= |s| {
      assert s[from..from + 3][0] == s[from];
      NoTickNoFence(s, from + 1);
    }
  }

  // ------------------------------------------------------- conflict outcome

  /** The screenplay fields the conflict rules touch; the others travel unchanged and are not modelled. */
  datatype Screenplay = Screenplay(id: string, name: string, content: string, createdAt: string, updatedAt: string)

  datatype ConflictResolution = Overwrite | KeepBoth | Cancel

  datatype Resolved = Resolved(screenplay: Screenplay, action: string)

  /**
   * `resolveConflict(resolution, diskContent, dbScreenplay)`, with the clock
   * readings `new Date().toISOString()` and `toLocaleString()` as parameters.
   */
  function ResolveConflict(resolution: ConflictResolution, diskContent: string, db: Screenplay,
                           isoNow: string, localNow: string): Resolved {
    match resolution
    case Overwrite => Resolved(db.(content := diskContent, updatedAt := isoNow), "overwrite")
    case KeepBoth =>
      Resolved(db.(id := "", name := db.name + " (Importado " + localNow + ")", content := diskContent,
                   createdAt := isoNow, updatedAt := isoNow), "keep-both")
    case Cancel => Resolved(db, "cancel")
  }

  /**
   * Overwriting keeps the stored identity and takes the disk text; keeping both
   * makes an unsaved copy (empty id) named after the original; cancelling
   * changes nothing. Only cancelling can leave a conflict in place.
   */
  lemma ResolveConflictFacts(resolution: ConflictResolution, diskContent: string, db: Screenplay,
                             isoNow: string, localNow: string)
    ensures var r := ResolveConflict(resolution, diskContent, db, isoNow, localNow);
      (resolution == Overwrite ==> r.screenplay.id == db.id && r.screenplay.name == db.name
                                   && r.screenplay.createdAt == db.createdAt && r.action == "overwrite")
      && (resolution == KeepBoth ==> r.screenplay.id == "" && StartsWith(r.screenplay.name, db.name + " (Importado ")
                                     && r.action == "keep-both")
      && (resolution == Cancel ==> r.screenplay == db && r.action == "cancel")
      && (resolution != Cancel ==> !DetectConflict(diskContent, r.screenplay.content))
  {
    if resolution == KeepBoth {
      var n := db.name + " (Importado " + localNow + ")";
      assert n == (db.name + " (Importado ") + (localNow + ")");
    }
  }

  datatype Origin = Database | Disk | New

  /** `generateFilePathInfo(origin, identifier)`. */
  function FilePathInfo(origin: Origin, identifier: Option<string>): string {
    var shown := if Truthy(identifier) then identifier.value else "unknown";
    match origin
    case Database => "\U{1F4BE} MongoDB: " + shown
    case Disk => "\U{1F4C1} Disco: " + shown
    case New => "\U{2728} Novo roteiro (não salvo)"
  }

  /** The stored or disk location shows the identifier, or `unknown` when it is absent or empty. */
  lemma FilePathInfoFacts(origin: Origin, identifier: Option<string>)
    ensures origin != New && Truthy(identifier) ==> EndsWith(FilePathInfo(origin, identifier), identifier.value)
    ensures origin != New && !Truthy(identifier) ==> EndsWith(FilePathInfo(origin, identifier), "unknown")
    ensures origin == New ==> FilePathInfo(origin, identifier) == FilePathInfo(New, None)
  {
    var shown := if Truthy(identifier) then identifier.value else "unknown";
    var r := FilePathInfo(origin, identifier);
    if origin != New {
      assert r[|r| - |shown|..] == shown;
    }
  }

  /** The exported file name is the one given, else the cleaned screenplay name with `.md`. */
  lemma ExportFilenameFacts(given: Option<string>, screenplayName: string)
    ensures Truthy(given) ==> ExportFilename(given, screenplayName) == given.value
    ensures !Truthy(given) ==> IsValidFilename(ExportFilename(given, screenplayName))
  {
    GeneratedFilenameRoundTrip(screenplayName);
  }
}
