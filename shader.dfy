/**
 * The shader program wrapper: splitting one annotated source file into its
 * vertex and fragment sections, the compile-failure result, and the memoised
 * uniform-location lookup with the setters built on it.
 *
 * Reading the file, compiling, linking and validating are driver work and
 * are not modelled: the file is given as its sequence of lines (as
 * `std::getline` yields them), the program id as a number, and
 * `glGetUniformLocation` for the program as an uninterpreted function.
 */
module Shaders {
  import opened Wrappers
  import opened Gl

  // ---------------------------------------------------------------------
  // Substring search (`std::string::find`)
  // ---------------------------------------------------------------------

  /** `p` occurs in `s` starting at position `j`. */
  predicate MatchAt(s: string, p: string, j: nat)
  {
    j + |p| <= |s| && s[j..j + |p|] == p
  }

  /** The first position at or after `from` where `p` occurs in `s`. */
  function FindFrom(s: string, p: string, from: nat): (r: Option<nat>)
    decreases |s| + 1 - from
    ensures r.Some? ==> from <= r.value && MatchAt(s, p, r.value)
    ensures r.Some? ==> forall j :: from <= j < r.value ==> !MatchAt(s, p, j)
    ensures r.None? ==> forall j :: from <= j ==> !MatchAt(s, p, j)
  {
    if from + |p| > |s| then None
    else if s[from..from + |p|] == p then Some(from)
    else FindFrom(s, p, from + 1)
  }

  /** `s.find(p)`: the first occurrence of `p` in `s`, `None` standing for `npos`. */
  function Find(s: string, p: string): (r: Option<nat>)
    ensures r.Some? ==> MatchAt(s, p, r.value) && forall j :: 0 <= j < r.value ==> !MatchAt(s, p, j)
    ensures r.None? <==> forall j :: 0 <= j ==> !MatchAt(s, p, j)
  {
    FindFrom(s, p, 0)
  }

  /** `s.find(p) != npos`. */
  predicate Contains(s: string, p: string)
  {
    Find(s, p).Some?
  }

  // ---------------------------------------------------------------------
  // Splitting the shader file
  // ---------------------------------------------------------------------

  /** The scanner's state: `NONE = -1`, `VERTEX = 0`, `FRAGMENT = 1`. */
  datatype ShaderType = NoType | Vertex | Fragment

  /** The `int` value of each state, used as the index into the two section buffers. */
  function TypeIndex(t: ShaderType): (k: int)
    ensures -1 <= k <= 1
    ensures k == -1 <==> t == NoType
  {
    match t
    case NoType => -1
    case Vertex => 0
    case Fragment => 1
  }

  /** How a line is treated: a marker selecting a section, a marker selecting nothing, or shader code. */
  datatype LineKind = VertexMarker | FragmentMarker | OtherMarker | SourceLine

  /**
   * A line mentioning `shader` is a marker; the vertex test comes first, so
   * a marker naming both sections selects the vertex section.
   */
  function Classify(line: string): (k: LineKind)
    ensures k == SourceLine <==> !Contains(line, "shader")
    ensures k == VertexMarker <==> Contains(line, "shader") && Contains(line, "vertex")
    ensures k == FragmentMarker <==> Contains(line, "shader") && !Contains(line, "vertex") && Contains(line, "fragment")
    ensures k == OtherMarker <==> Contains(line, "shader") && !Contains(line, "vertex") && !Contains(line, "fragment")
  {
    if Contains(line, "shader") then
      if Contains(line, "vertex") then VertexMarker
      else if Contains(line, "fragment") then FragmentMarker
      else OtherMarker
    else SourceLine
  }

  predicate Selects(k: LineKind)
  {
    k == VertexMarker || k == FragmentMarker
  }

  datatype ShaderSources = ShaderSources(vertexSource: string, fragmentSource: string)

  /**
   * The source appends a code line that precedes every section marker to
   * `ss[-1]`, which is undefined behaviour; the model reports it instead,
   * with the line's position.
   */
  datatype ParseError = SourceOutsideSection(line: nat)

  /**
   * Reference definition of the split, one line at a time: the remaining
   * lines, the state, both buffers so far, and the current line's position.
   */
  function Scan(lines: seq<string>, t: ShaderType, vs: string, fs: string, pos: nat): (r: Result<ShaderSources, ParseError>)
    decreases |lines|
  {
    if lines == [] then Ok(ShaderSources(vs, fs))
    else
      var line := lines[0];
      match Classify(line)
      case VertexMarker => Scan(lines[1..], Vertex, vs, fs, pos + 1)
      case FragmentMarker => Scan(lines[1..], Fragment, vs, fs, pos + 1)
      case OtherMarker => Scan(lines[1..], t, vs, fs, pos + 1)
      case SourceLine =>
        match t
        case NoType => Err(SourceOutsideSection(pos))
        case Vertex => Scan(lines[1..], t, vs + line + "\n", fs, pos + 1)
        case Fragment => Scan(lines[1..], t, vs, fs + line + "\n", pos + 1)
  }

  /** The split of a whole file, starting in no section with both buffers empty. */
  function Parse(lines: seq<string>): (r: Result<ShaderSources, ParseError>)
  {
    Scan(lines, NoType, "", "", 0)
  }

  /** The lines of a block, each followed by a newline. */
  function Join(block: seq<string>): (r: string)
  {
    if block == [] then "" else block[0] + "\n" + Join(block[1..])
  }

  /** A block of shader code: no line in it is a marker. */
  predicate CodeOnly(block: seq<string>)
  {
    forall i :: 0 <= i < |block| ==> Classify(block[i]) == SourceLine
  }

  /** Line `i` is code and no section was selected before it. */
  predicate Unsectioned(lines: seq<string>, i: nat)
  {
    i < |lines| && Classify(lines[i]) == SourceLine &&
    forall j :: 0 <= j < i ==> !Selects(Classify(lines[j]))
  }

  /** Inside a section, a block of code lines is appended, in order, to that section's buffer. */
  lemma {:induction false} ScanBlock(block: seq<string>, rest: seq<string>, t: ShaderType,
                                      vs: string, fs: string, pos: nat)
    requires t != NoType && CodeOnly(block)
    ensures Scan(block + rest, t, vs, fs, pos) ==
            Scan(rest, t, if t == Vertex then vs + Join(block) else vs,
                          if t == Fragment then fs + Join(block) else fs, pos + |block|)
  {
    if block == [] {
      assert block + rest == rest;
      assert vs + Join(block) == vs && fs + Join(block) == fs;
    } else {
      var line := block[0];
      assert (block + rest)[0] == line;
      assert (block + rest)[1..] == block[1..] + rest;
      assert CodeOnly(block[1..]) by {
        forall i | 0 <= i < |block[1..]| ensures Classify(block[1..][i]) == SourceLine {
          assert block[1..][i] == block[i + 1];
        }
      }
      if t == Vertex {
        ScanBlock(block[1..], rest, t, vs + line + "\n", fs, pos + 1);
        assert vs + line + "\n" + Join(block[1..]) == vs + Join(block);
      } else {
        ScanBlock(block[1..], rest, t, vs, fs + line + "\n", pos + 1);
        assert fs + line + "\n" + Join(block[1..]) == fs + Join(block);
      }
    }
  }

  /** A marker selecting section `t`, then a code block, then the rest: the block lands in `t`'s buffer. */
  lemma SectionThen(marker: string, block: seq<string>, rest: seq<string>, t: ShaderType,
                    vs: string, fs: string, pos: nat)
    requires t != NoType && CodeOnly(block)
    requires Classify(marker) == (if t == Vertex then VertexMarker else FragmentMarker)
    ensures Scan([marker] + block + rest, NoType, vs, fs, pos) ==
            Scan(rest, t, if t == Vertex then vs + Join(block) else vs,
                          if t == Fragment then fs + Join(block) else fs, pos + 1 + |block|)
  {
    var lines := [marker] + block + rest;
    assert lines[0] == marker;
    assert lines[1..] == block + rest;
    assert Scan(lines, NoType, vs, fs, pos) == Scan(block + rest, t, vs, fs, pos + 1);
    ScanBlock(block, rest, t, vs, fs, pos + 1);
  }

  /** The same for a marker that switches from one section to the other. */
  lemma SwitchThen(marker: string, block: seq<string>, t: ShaderType, u: ShaderType, vs: string, fs: string, pos: nat)
    requires t != NoType && u != NoType && CodeOnly(block)
    requires Classify(marker) == (if u == Vertex then VertexMarker else FragmentMarker)
    ensures Scan([marker] + block, t, vs, fs, pos) ==
            Ok(ShaderSources(if u == Vertex then vs + Join(block) else vs,
                             if u == Fragment then fs + Join(block) else fs))
  {
    var lines := [marker] + block;
    assert lines[0] == marker;
    assert lines[1..] == block + [];
    assert Scan(lines, t, vs, fs, pos) == Scan(block + [], u, vs, fs, pos + 1);
    ScanBlock(block, [], u, vs, fs, pos + 1);
  }

  /** A vertex section followed by a fragment section splits into the two code blocks. */
  lemma VertexSectionFirst(vertexMarker: string, fragmentMarker: string, a: seq<string>, b: seq<string>)
    requires Classify(vertexMarker) == VertexMarker && Classify(fragmentMarker) == FragmentMarker
    requires CodeOnly(a) && CodeOnly(b)
    ensures Parse([vertexMarker] + a + [fragmentMarker] + b) == Ok(ShaderSources(Join(a), Join(b)))
  {
    var tail := [fragmentMarker] + b;
    assert [vertexMarker] + a + [fragmentMarker] + b == [vertexMarker] + a + tail;
    assert "" + Join(a) == Join(a) && "" + Join(b) == Join(b);
    SectionThen(vertexMarker, a, tail, Vertex, "", "", 0);
    assert Parse([vertexMarker] + a + tail) == Scan(tail, Vertex, Join(a), "", 1 + |a|);
    SwitchThen(fragmentMarker, b, Vertex, Fragment, Join(a), "", 1 + |a|);
  }

  /** A fragment section followed by a vertex section splits into the two code blocks. */
  lemma FragmentSectionFirst(vertexMarker: string, fragmentMarker: string, a: seq<string>, b: seq<string>)
    requires Classify(vertexMarker) == VertexMarker && Classify(fragmentMarker) == FragmentMarker
    requires CodeOnly(a) && CodeOnly(b)
    ensures Parse([fragmentMarker] + b + [vertexMarker] + a) == Ok(ShaderSources(Join(a), Join(b)))
  {
    assert [fragmentMarker] + b + [vertexMarker] + a == [fragmentMarker] + b + ([vertexMarker] + a);
    SectionThen(fragmentMarker, b, [vertexMarker] + a, Fragment, "", "", 0);
    SwitchThen(vertexMarker, a, Fragment, Vertex, "", Join(b), 1 + |b|);
    assert "" + Join(a) == Join(a) && "" + Join(b) == Join(b);
  }

  /**
   * A two-section file splits into the same two code blocks whichever
   * section comes first.
   */
  lemma SectionOrderIrrelevant(vertexMarker: string, fragmentMarker: string, a: seq<string>, b: seq<string>)
    requires Classify(vertexMarker) == VertexMarker && Classify(fragmentMarker) == FragmentMarker
    requires CodeOnly(a) && CodeOnly(b)
    ensures Parse([vertexMarker] + a + [fragmentMarker] + b) == Parse([fragmentMarker] + b + [vertexMarker] + a)
    ensures Parse([vertexMarker] + a + [fragmentMarker] + b) == Ok(ShaderSources(Join(a), Join(b)))
  {
    VertexSectionFirst(vertexMarker, fragmentMarker, a, b);
    FragmentSectionFirst(vertexMarker, fragmentMarker, a, b);
  }

  /** The usual marker lines select the vertex and the fragment section. */
  lemma MarkersClassify()
    ensures Classify("#shader vertex") == VertexMarker
    ensures Classify("#shader fragment") == FragmentMarker
  {
    var v, f := "#shader vertex", "#shader fragment";
    assert MatchAt(v, "shader", 1) && MatchAt(v, "vertex", 8);
    assert MatchAt(f, "shader", 1) && MatchAt(f, "fragment", 8);
    assert forall k :: 0 <= k < |f| ==> f[k] != 'v';
    forall j: nat ensures !MatchAt(f, "vertex", j) {
      if j + 6 <= |f| {
        assert f[j..j + 6][0] == f[j];
      }
    }
  }

  /** Once a section is selected the split cannot fail. */
  lemma {:induction false} ScanInSectionSucceeds(lines: seq<string>, t: ShaderType, vs: string, fs: string, pos: nat)
    requires t != NoType
    ensures Scan(lines, t, vs, fs, pos).Ok?
    decreases |lines|
  {
    if lines != [] {
      var line := lines[0];
      match Classify(line)
      case VertexMarker => ScanInSectionSucceeds(lines[1..], Vertex, vs, fs, pos + 1);
      case FragmentMarker => ScanInSectionSucceeds(lines[1..], Fragment, vs, fs, pos + 1);
      case OtherMarker => ScanInSectionSucceeds(lines[1..], t, vs, fs, pos + 1);
      case SourceLine =>
        if t == Vertex {
          ScanInSectionSucceeds(lines[1..], t, vs + line + "\n", fs, pos + 1);
        } else {
          ScanInSectionSucceeds(lines[1..], t, vs, fs + line + "\n", pos + 1);
        }
    }
  }

  /** A non-selecting marker line before an unsectioned line keeps it unsectioned. */
  lemma UnsectionedCons(lines: seq<string>, i: nat)
    requires |lines| > 0 && Classify(lines[0]) == OtherMarker
    requires Unsectioned(lines[1..], i)
    ensures Unsectioned(lines, i + 1)
  {
    forall j | 0 <= j < i + 1 ensures !Selects(Classify(lines[j])) {
      if j > 0 { assert lines[j] == lines[1..][j - 1]; }
    }
  }

  /** A failed split names a code line that no marker before it put into a section. */
  lemma {:induction false} ScanErrorUnsectioned(lines: seq<string>, vs: string, fs: string, pos: nat)
    requires Scan(lines, NoType, vs, fs, pos).Err?
    ensures pos <= Scan(lines, NoType, vs, fs, pos).error.line
    ensures Unsectioned(lines, Scan(lines, NoType, vs, fs, pos).error.line - pos)
    decreases |lines|
  {
    var rest := lines[1..];
    var kind := Classify(lines[0]);
    if kind == VertexMarker {
      ScanInSectionSucceeds(rest, Vertex, vs, fs, pos + 1);
    } else if kind == FragmentMarker {
      ScanInSectionSucceeds(rest, Fragment, vs, fs, pos + 1);
    } else if kind == OtherMarker {
      var e := Scan(rest, NoType, vs, fs, pos + 1);
      assert Scan(lines, NoType, vs, fs, pos) == e;
      ScanErrorUnsectioned(rest, vs, fs, pos + 1);
      UnsectionedCons(lines, e.error.line - (pos + 1));
    } else {
      assert Scan(lines, NoType, vs, fs, pos) == Err(SourceOutsideSection(pos));
    }
  }

  /** A code line that no marker before it put into a section makes the split fail. */
  lemma {:induction false} UnsectionedFails(lines: seq<string>, i: nat, vs: string, fs: string, pos: nat)
    requires Unsectioned(lines, i)
    ensures Scan(lines, NoType, vs, fs, pos).Err?
    decreases i
  {
    if i > 0 {
      var rest := lines[1..];
      assert !Selects(Classify(lines[0]));
      if Classify(lines[0]) == OtherMarker {
        forall j | 0 <= j < i - 1 ensures !Selects(Classify(rest[j])) {
          assert rest[j] == lines[j + 1];
        }
        assert Unsectioned(rest, i - 1);
        UnsectionedFails(rest, i - 1, vs, fs, pos + 1);
      }
    }
  }

  /**
   * The split of a whole file fails exactly when some code line comes
   * before every section marker, and the error names such a line.
   */
  lemma ParseFails(lines: seq<string>)
    ensures Parse(lines).Err? <==> exists i: nat :: Unsectioned(lines, i)
    ensures Parse(lines).Err? ==> Unsectioned(lines, Parse(lines).error.line)
  {
    if Parse(lines).Err? {
      ScanErrorUnsectioned(lines, "", "", 0);
    }
    if exists i: nat :: Unsectioned(lines, i) {
      var i: nat :| Unsectioned(lines, i);
      UnsectionedFails(lines, i, "", "", 0);
    }
  }

  /**
   * `parseShader`: the `getline` loop over the file's lines, with the state
   * variable and the two section buffers `ss[0]` and `ss[1]`.
   */
  method ParseShader(lines: seq<string>) returns (r: Result<ShaderSources, ParseError>)
    ensures r == Parse(lines)
  {
    var ss := new string[2](_ => "");
    var t := NoType;
    var i := 0;
    while i < |lines|
      invariant 0 <= i <= |lines|
      invariant Parse(lines) == Scan(lines[i..], t, ss[0], ss[1], i)
    {
      var line := lines[i];
      assert lines[i..][0] == line && lines[i..][1..] == lines[i + 1..];
      if Contains(line, "shader") {
        if Contains(line, "vertex") {
          t := Vertex;
        } else if Contains(line, "fragment") {
          t := Fragment;
        }
      } else {
        var k := TypeIndex(t);
        if k < 0 {
          return Err(SourceOutsideSection(i));
        }
        ss[k] := ss[k] + line + "\n";
      }
      i := i + 1;
    }
    r := Ok(ShaderSources(ss[0], ss[1]));
  }

  // ---------------------------------------------------------------------
  // Compilation result
  // ---------------------------------------------------------------------

  /**
   * `compileShader`: given the id `glCreateShader` handed out and the
   * driver's compile status, the returned shader id is 0 exactly when the
   * compile failed (or the driver gave no shader), and otherwise the created id.
   */
  function CompileShader(created: nat, compiled: bool): (id: nat)
    ensures id == 0 <==> !compiled || created == 0
    ensures id != 0 ==> id == created
  {
    if !compiled then 0 else created
  }

  // ---------------------------------------------------------------------
  // The program object and its uniform-location cache
  // ---------------------------------------------------------------------

  class Shader {
    /** The linked program's id (`m_renderedId`). */
    const program: nat
    const vertexSource: string
    const fragmentSource: string
    /** `glGetUniformLocation(program, name)`: the driver's answer, fixed for the program. */
    const location: string -> int
    /** `m_uniformLoactionCache`. */
    var cache: map<string, int>

    /** Every cached location, found or not (-1), is the driver's answer for that name. */
    ghost predicate Valid()
      reads this
    {
      forall name :: name in cache ==> cache[name] == location(name)
    }

    /** `Shader(filepath)`: splits the file and keeps the program built from its sections. */
    constructor (lines: seq<string>, program: nat, location: string -> int)
      requires Parse(lines).Ok?
      ensures Valid() && cache == map[]
      ensures this.program == program && this.location == location
      ensures vertexSource == Parse(lines).value.vertexSource
      ensures fragmentSource == Parse(lines).value.fragmentSource
    {
      var sources := ParseShader(lines);
      this.program := program;
      this.location := location;
      vertexSource := sources.value.vertexSource;
      fragmentSource := sources.value.fragmentSource;
      cache := map[];
    }

    /** `Bind()`: make this the current program. */
    function Bind(): (calls: seq<GlCall>)
      ensures |calls| == 1 && calls[0] == UseProgram(program) && DrawCount(calls) == 0
    {
      [UseProgram(program)]
    }

    /**
     * `getUniformLocation(name)`: a cached name is answered from the cache
     * without asking the driver; otherwise the driver is asked once and its
     * answer, -1 included, is cached. Only `name`'s entry can change.
     * The ghost result `queried` records whether the driver was asked.
     */
    method GetUniformLocation(name: string) returns (loc: int, ghost queried: bool)
      requires Valid()
      modifies this
      ensures Valid()
      ensures loc == location(name)
      ensures queried <==> name !in old(cache)
      ensures name in old(cache) ==> loc == old(cache)[name] && cache == old(cache)
      ensures cache == old(cache)[name := loc]
    {
      queried := name !in cache;
      if name in cache {
        loc := cache[name];
        return;
      }
      loc := location(name);
      cache := cache[name := loc];
    }

    /** `setUniform1i`: always uploads, even to location -1. */
    method SetUniform1i(name: string, value: int) returns (calls: seq<GlCall>)
      requires Valid()
      modifies this
      ensures Valid() && cache == old(cache)[name := location(name)]
      ensures calls == [Uniform1i(location(name), value)]
    {
      var loc, _ := GetUniformLocation(name);
      calls := [Uniform1i(loc, value)];
    }

    /** `setUniform1f`: always uploads, even to location -1. */
    method SetUniform1f(name: string, value: real) returns (calls: seq<GlCall>)
      requires Valid()
      modifies this
      ensures Valid() && cache == old(cache)[name := location(name)]
      ensures calls == [Uniform1f(location(name), value)]
    {
      var loc, _ := GetUniformLocation(name);
      calls := [Uniform1f(loc, value)];
    }

    /** `setUniform4f`: always uploads, even to location -1. */
    method SetUniform4f(name: string, value: Vec4) returns (calls: seq<GlCall>)
      requires Valid()
      modifies this
      ensures Valid() && cache == old(cache)[name := location(name)]
      ensures calls == [Uniform4f(location(name), value)]
    {
      var loc, _ := GetUniformLocation(name);
      calls := [Uniform4f(loc, value)];
    }

    /** `setUniformMat4f`: uploads nothing when the uniform does not exist (-1). */
    method SetUniformMat4f(name: string, matrix: Mat4) returns (calls: seq<GlCall>)
      requires Valid()
      modifies this
      ensures Valid() && cache == old(cache)[name := location(name)]
      ensures location(name) == -1 ==> calls == []
      ensures location(name) != -1 ==> calls == [UniformMatrix4f(location(name), matrix)]
    {
      var loc, _ := GetUniformLocation(name);
      if loc == -1 {
        return [];
      }
      calls := [UniformMatrix4f(loc, matrix)];
    }
  }
}
