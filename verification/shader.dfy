/** The pure parts of the shader wrapper (opengl/resources/shader.hpp): stage
    names, the length convention for source strings handed to
    `glShaderSource`, and what `debug_print` reports for a compile log: each
    non-empty log line, followed, when it names a source line, by a window of
    source lines around it. */
module Shader {
  import opened Gl
  import opened TextLines

  predicate IsStage(shaderType: nat) {
    shaderType in {VERTEX_SHADER, TESS_CONTROL_SHADER, TESS_EVALUATION_SHADER,
                   GEOMETRY_SHADER, FRAGMENT_SHADER, COMPUTE_SHADER}
  }

  /** `shader_type_string`: the name of each of the six stages, "unknown" for anything else. */
  function ShaderTypeString(shaderType: nat): (name: string)
    ensures name == "vertex" <==> shaderType == VERTEX_SHADER
    ensures name == "tessellation control" <==> shaderType == TESS_CONTROL_SHADER
    ensures name == "tessellation evaluation" <==> shaderType == TESS_EVALUATION_SHADER
    ensures name == "geometry" <==> shaderType == GEOMETRY_SHADER
    ensures name == "fragment" <==> shaderType == FRAGMENT_SHADER
    ensures name == "compute" <==> shaderType == COMPUTE_SHADER
    ensures name == "unknown" <==> !IsStage(shaderType)
  {
    if shaderType == VERTEX_SHADER then "vertex"
    else if shaderType == TESS_CONTROL_SHADER then "tessellation control"
    else if shaderType == TESS_EVALUATION_SHADER then "tessellation evaluation"
    else if shaderType == GEOMETRY_SHADER then "geometry"
    else if shaderType == FRAGMENT_SHADER then "fragment"
    else if shaderType == COMPUTE_SHADER then "compute"
    else "unknown"
  }

  /** A source argument of `set_source`: a `czstring` (the characters from its
      pointer on, up to and past its terminating NUL) or a `string_view`. */
  datatype SourceString = CzString(chars: string) | View(chars: string)

  /** `data`: the pointer handed to GL, as the characters it points at. */
  function Data(s: SourceString): (d: string)
    ensures Text(s) <= d
  {
    s.chars
  }

  /** `size`: -1 ("read up to the NUL") for a C string, the exact length for a view. */
  function Size(s: SourceString): (n: int)
    ensures s.CzString? ==> n == -1
    ensures s.View? ==> n == |s.chars|
  {
    match s
    case CzString(_) => -1
    case View(v) => |v|
  }

  /** The `lengths` array of `set_source`: one entry per argument, in order. */
  function SourceLengths(sources: seq<SourceString>): (lengths: seq<int>)
    ensures |lengths| == |sources|
    ensures forall i :: 0 <= i < |sources| ==> lengths[i] == Size(sources[i])
  {
    seq(|sources|, i requires 0 <= i < |sources| => Size(sources[i]))
  }

  /** What `glShaderSource` copies from one string and its length: a negative
      length means "up to the terminating NUL". */
  function CopiedText(data: string, length: int): string
    requires length <= |data|
  {
    if length < 0 then data[..NulIndex(data)] else data[..length]
  }

  /** The text an argument stands for: a C string ends at its NUL, a view is all its characters. */
  function Text(s: SourceString): string
  {
    match s
    case CzString(c) => c[..NulIndex(c)]
    case View(v) => v
  }

  /** With these lengths GL copies exactly the text of every argument, also
      for views, which need not be NUL-terminated. */
  lemma SetSourceCopiesTexts(sources: seq<SourceString>)
    ensures forall i :: 0 <= i < |sources| ==>
      CopiedText(Data(sources[i]), SourceLengths(sources)[i]) == Text(sources[i])
  {
    forall i | 0 <= i < |sources|
      ensures CopiedText(Data(sources[i]), SourceLengths(sources)[i]) == Text(sources[i])
    {
      var s := sources[i];
      if s.View? {
        assert s.chars[..|s.chars|] == s.chars;
      }
    }
  }

  /** `set_sources(range)`: every string of the range is passed by its data and its size. */
  function SetSourcesArguments(strs: seq<string>): (args: seq<SourceString>)
    ensures |args| == |strs|
    ensures forall i :: 0 <= i < |strs| ==> args[i] == View(strs[i])
  {
    seq(|strs|, i requires 0 <= i < |strs| => View(strs[i]))
  }

  /** The strings concatenated in order. */
  function Concat(ss: seq<string>): string {
    if ss == [] then [] else Concat(ss[..|ss| - 1]) + ss[|ss| - 1]
  }

  /** The shader source `glShaderSource` stores: the text it copies from each
      string, concatenated in order (section 7.1 of the OpenGL 4.6 core profile
      specification). */
  function StoredSource(data: seq<string>, lengths: seq<int>): string
    requires |data| == |lengths|
    requires forall i :: 0 <= i < |data| ==> lengths[i] <= |data[i]|
  {
    if data == [] then []
    else StoredSource(data[..|data| - 1], lengths[..|lengths| - 1]) + CopiedText(data[|data| - 1], lengths[|lengths| - 1])
  }

  /** The pointers `set_source` hands to GL, one per argument. */
  function SourceData(sources: seq<SourceString>): (data: seq<string>)
    ensures |data| == |sources|
    ensures forall i :: 0 <= i < |sources| ==> data[i] == Data(sources[i])
    ensures forall i :: 0 <= i < |sources| ==> SourceLengths(sources)[i] <= |data[i]|
  {
    seq(|sources|, i requires 0 <= i < |sources| => Data(sources[i]))
  }

  /** The texts the arguments stand for. */
  function Texts(sources: seq<SourceString>): seq<string> {
    seq(|sources|, i requires 0 <= i < |sources| => Text(sources[i]))
  }

  /** `set_source(str...)` stores the concatenation of the texts of its
      arguments: C strings up to their NUL, views whole. When no argument
      holds a NUL, that is the concatenation of all their characters. */
  lemma SetSourceStores(sources: seq<SourceString>)
    ensures StoredSource(SourceData(sources), SourceLengths(sources)) == Concat(Texts(sources))
    ensures (forall i :: 0 <= i < |sources| ==> '\0' !in sources[i].chars) ==>
      StoredSource(SourceData(sources), SourceLengths(sources)) ==
      Concat(seq(|sources|, i requires 0 <= i < |sources| => sources[i].chars))
  {
    StoredTexts(sources);
    if forall i :: 0 <= i < |sources| ==> '\0' !in sources[i].chars {
      NulFreeTexts(sources);
    }
  }

  /** Without a NUL, the text of an argument is all its characters. */
  lemma NulFreeTexts(sources: seq<SourceString>)
    requires forall i :: 0 <= i < |sources| ==> '\0' !in sources[i].chars
    ensures Texts(sources) == seq(|sources|, i requires 0 <= i < |sources| => sources[i].chars)
  {
    forall i | 0 <= i < |sources|
      ensures Texts(sources)[i] == sources[i].chars
    {
      var c := sources[i].chars;
      assert NulIndex(c) == |c| && c[..|c|] == c;
    }
  }

  /** The induction behind `SetSourceStores`. */
  lemma {:induction false} StoredTexts(sources: seq<SourceString>)
    ensures StoredSource(SourceData(sources), SourceLengths(sources)) == Concat(Texts(sources))
  {
    if sources != [] {
      var init := sources[..|sources| - 1];
      var last := sources[|sources| - 1];
      StoredTexts(init);
      var data, lengths := SourceData(sources), SourceLengths(sources);
      assert data[..|data| - 1] == SourceData(init);
      assert lengths[..|lengths| - 1] == SourceLengths(init);
      assert Texts(sources)[..|sources| - 1] == Texts(init);
      SetSourceCopiesTexts(sources);
      assert CopiedText(data[|data| - 1], lengths[|lengths| - 1]) == Text(last);
    }
  }

  /** `set_sources(range)` stores exactly the concatenation of the range's
      strings, NUL characters included. */
  lemma SetSourcesCopiesWhole(strs: seq<string>)
    ensures forall i :: 0 <= i < |strs| ==>
      CopiedText(Data(SetSourcesArguments(strs)[i]), SourceLengths(SetSourcesArguments(strs))[i]) == strs[i]
    ensures var args := SetSourcesArguments(strs);
      StoredSource(SourceData(args), SourceLengths(args)) == Concat(strs)
  {
    var args := SetSourcesArguments(strs);
    SetSourceCopiesTexts(args);
    SetSourceStores(args);
    assert Texts(args) == strs;
  }

  /** What `debug_print` prints, record by record (text layout left out). */
  datatype Printed =
    | Status(stage: string, compiled: bool)               // "<stage> shader compile status: success|failed"
    | Rule                                                // a "---" separator
    | LogLine(text: string)                               // one line of the info log
    | SourceLine(number: nat, text: string, current: bool) // "  k |  ..." or, for the named line, "->k |  ..."

  /** The lines of `s` as cut out by its line offsets: line `k + 1` runs
      from offset `k` to offset `k + 1`, its newline included. */
  function Lines(s: string): (ls: seq<string>)
    ensures |ls| == |Offsets(s)| - 1
    ensures forall k :: 0 <= k < |ls| ==> ls[k] == s[Offsets(s)[k]..Offsets(s)[k + 1]]
  {
    var offs := Offsets(s);
    seq(|offs| - 1, k requires 0 <= k < |offs| - 1 => s[offs[k]..offs[k + 1]])
  }

  /** `std::max(n - 2, 1)`: the first source line shown around line `n`. */
  function WindowFirst(n: int): (first: int)
    ensures first >= 1 && first >= n - 2
    ensures first == 1 || first == n - 2
  {
    if n - 2 > 1 then n - 2 else 1
  }

  /** `std::min(n + 2, int(src_lines.size()))`: the end (exclusive) of the window. */
  function WindowLast(n: int, count: nat): (last: int)
    ensures last <= count && last <= n + 2
    ensures last == count || last == n + 2
  {
    if n + 2 < count then n + 2 else count
  }

  /** Source lines `lo` up to `hi - 1` (counted from 1), the one numbered `n` marked as current. */
  function Context(srcLines: seq<string>, n: nat, lo: nat, hi: nat): seq<Printed>
    requires 1 <= lo && hi <= |srcLines| + 1
    decreases hi
  {
    if hi <= lo then []
    else Context(srcLines, n, lo, hi - 1) + [SourceLine(hi - 1, srcLines[hi - 2], hi - 1 == n)]
  }

  /** `src_lines[n]` is read unchecked: every line number the log names must
      be a line of the source, i.e. below the number of its line offsets. */
  ghost predicate ContextInRange(log: string, src: string) {
    NamedLinesExist(Lines(log), |Lines(src)|)
  }

  /** No line of `logLines` names a line beyond `count` (-1 and 0 name none). */
  predicate NamedLinesExist(logLines: seq<string>, count: nat) {
    forall i :: 0 <= i < |logLines| ==> MatchedLineNumber(logLines[i]) <= count
  }

  /** What log line `line` contributes: nothing when it is empty; else the
      line, and when it names a source line `n > 0`, the window around `n`. */
  function Entry(line: string, srcLines: seq<string>): seq<Printed>
    requires MatchedLineNumber(line) <= |srcLines|
  {
    if line == [] then []
    else
      var n := MatchedLineNumber(line);
      if n > 0 then
        [LogLine(line)] + Context(srcLines, n, WindowFirst(n), WindowLast(n, |srcLines| + 1))
      else [LogLine(line)]
  }

  /** The contributions of the first `k` log lines. */
  function Entries(logLines: seq<string>, srcLines: seq<string>, k: nat): seq<Printed>
    requires k <= |logLines|
    requires NamedLinesExist(logLines, |srcLines|)
  {
    if k == 0 then [] else Entries(logLines, srcLines, k - 1) + Entry(logLines[k - 1], srcLines)
  }

  /** Everything `debug_print` prints for a shader of stage `shaderType`. */
  function Listing(shaderType: nat, log: string, compiled: bool, src: string): seq<Printed>
    requires ContextInRange(log, src)
  {
    if compiled && log == [] then []
    else if log == [] then [Status(ShaderTypeString(shaderType), compiled)]
    else
      [Status(ShaderTypeString(shaderType), compiled), Rule] +
      Entries(Lines(log), Lines(src), |Lines(log)|) + [Rule]
  }

  /** `debug_print`. The info log, the compile status and the source text are
      the results of GL queries, so they are parameters. */
  method DebugPrint(shaderType: nat, log: string, compiled: bool, src: string) returns (out: seq<Printed>)
    requires ContextInRange(log, src)
    ensures out == Listing(shaderType, log, compiled, src)
  {
    if compiled && |log| == 0 {
      return [];
    }
    out := [Status(ShaderTypeString(shaderType), compiled)];
    if |log| == 0 {
      return;
    }
    var lines := LineOffsets(log);
    var srcLines := LineOffsets(src);
    OffsetsCutLines(log);
    OffsetsCutLines(src);
    var entries := PrintLog(log, lines, Lines(log), src, srcLines, Lines(src));
    out := [Status(ShaderTypeString(shaderType), compiled), Rule] + entries + [Rule];
  }

  /** The loop of `debug_print` over the log lines that `lines` cuts out of `log`. */
  method PrintLog(log: string, lines: seq<nat>, ghost logText: seq<string>,
                  src: string, srcLines: seq<nat>, ghost srcText: seq<string>)
    returns (out: seq<Printed>)
    requires CutsLines(log, lines, logText) && CutsLines(src, srcLines, srcText)
    requires NamedLinesExist(logText, |srcText|)
    ensures out == Entries(logText, srcText, |logText|)
  {
    out := [];
    var i := 1;
    while i < |lines|
      invariant 1 <= i <= |lines|
      invariant out == Entries(logText, srcText, i - 1)
    {
      var j := i - 1;
      CutLine(log, lines, logText, j);
      var line := log[lines[j]..lines[j + 1]];
      var printed := PrintLogLine(line, src, srcLines, srcText);
      assert Entries(logText, srcText, j + 1) == out + Entry(logText[j], srcText);
      out := out + printed;
      i := i + 1;
    }
  }

  /** One pass of the loop of `debug_print`: skip an empty line, else print
      it and, when it names source line `n > 0`, the lines around `n`. */
  method PrintLogLine(line: string, src: string, srcLines: seq<nat>, ghost srcText: seq<string>)
    returns (out: seq<Printed>)
    requires CutsLines(src, srcLines, srcText)
    requires MatchedLineNumber(line) <= |srcText|
    ensures out == Entry(line, srcText)
  {
    if |line| == 0 {
      return [];
    }
    var n := MatchedLineNumber(line);
    out := [LogLine(line)];
    if n > 0 {
      var context := PrintContext(src, srcLines, srcText, n);
      out := out + context;
    }
  }

  /** `offs` cuts `s` into the lines `ls`: line `k + 1` is `s[offs[k]..offs[k + 1]]`. */
  ghost predicate CutsLines(s: string, offs: seq<nat>, ls: seq<string>) {
    && |offs| == |ls| + 1
    && forall k {:trigger ls[k]} :: 0 <= k < |ls| ==>
         offs[k] <= offs[k + 1] <= |s| && ls[k] == s[offs[k]..offs[k + 1]]
  }

  lemma CutLine(s: string, offs: seq<nat>, ls: seq<string>, k: nat)
    requires CutsLines(s, offs, ls) && k < |ls|
    ensures offs[k] <= offs[k + 1] <= |s| && ls[k] == s[offs[k]..offs[k + 1]]
  {
    var line := ls[k];
  }

  lemma OffsetsCutLines(s: string)
    ensures CutsLines(s, Offsets(s), Lines(s))
  {
  }

  /** The source lines `debug_print` shows around line `n`, from
      `first = max(n - 2, 1)` up to `last = min(n + 2, |srcLines|)`;
      `srcText` are the lines `srcLines` cuts out of `src`. */
  method PrintContext(src: string, srcLines: seq<nat>, ghost srcText: seq<string>, n: nat) returns (out: seq<Printed>)
    requires CutsLines(src, srcLines, srcText)
    requires 0 < n <= |srcText|
    ensures out == Context(srcText, n, WindowFirst(n), WindowLast(n, |srcLines|))
  {
    var first := if n - 2 > 1 then n - 2 else 1;
    var last := if n + 2 < |srcLines| then n + 2 else |srcLines|;
    out := [];
    var k := first;
    while k < n
      invariant first <= k <= n
      invariant out == Context(srcText, n, first, k)
    {
      CutLine(src, srcLines, srcText, k - 1);
      out := out + [SourceLine(k, src[srcLines[k - 1]..srcLines[k]], false)];
      k := k + 1;
    }
    CutLine(src, srcLines, srcText, n - 1);
    out := out + [SourceLine(n, src[srcLines[n - 1]..srcLines[n]], true)];
    k := n + 1;
    while k < last
      invariant n + 1 <= k <= last
      invariant out == Context(srcText, n, first, k)
    {
      CutLine(src, srcLines, srcText, k - 1);
      out := out + [SourceLine(k, src[srcLines[k - 1]..srcLines[k]], false)];
      k := k + 1;
    }
  }

  /** The context printed from `lo` to `hi`: consecutive line numbers, each with its own text. */
  lemma {:induction false} ContextAt(srcLines: seq<string>, n: nat, lo: nat, hi: nat)
    requires 1 <= lo <= hi <= |srcLines| + 1
    ensures |Context(srcLines, n, lo, hi)| == hi - lo
    ensures forall j :: 0 <= j < hi - lo ==>
      Context(srcLines, n, lo, hi)[j] == SourceLine(lo + j, srcLines[lo + j - 1], lo + j == n)
    decreases hi
  {
    if lo < hi {
      ContextAt(srcLines, n, lo, hi - 1);
    }
  }

  /** The window around a named line `n`: it starts at max(n - 2, 1), so never
      below line 1, and ends before min(n + 2, line offset count); it shows
      the lines from n - 2 to n + 1 that exist, each with its own text, and
      marks exactly line `n`. */
  lemma ContextWindow(srcLines: seq<string>, n: nat)
    requires 0 < n <= |srcLines|
    ensures var c := Context(srcLines, n, WindowFirst(n), WindowLast(n, |srcLines| + 1));
      && |c| == WindowLast(n, |srcLines| + 1) - WindowFirst(n)
      && c[n - WindowFirst(n)] == SourceLine(n, srcLines[n - 1], true)
      && forall j :: 0 <= j < |c| ==>
           && c[j].SourceLine?
           && c[j].number == WindowFirst(n) + j
           && 1 <= c[j].number <= |srcLines|
           && n - 2 <= c[j].number <= n + 1
           && c[j].text == srcLines[c[j].number - 1]
           && (c[j].current <==> c[j].number == n)
  {
    ContextAt(srcLines, n, WindowFirst(n), WindowLast(n, |srcLines| + 1));
  }

  /** Nothing at all is printed exactly when the shader compiled with an empty log. */
  lemma SilentIffCleanCompile(shaderType: nat, log: string, compiled: bool, src: string)
    requires ContextInRange(log, src)
    ensures Listing(shaderType, log, compiled, src) == [] <==> compiled && log == []
  {
  }
}
