/**
 * CStdShader / CStdGLShader (Shader.h, Shader.cpp): a shader's type, source text, include list and
 * macro table, the mapping of its type onto a GL shader stage, and the preparation of its source
 * text: a preamble of "#define" lines, the includes and a "#line 1" directive is spliced in right
 * after the line holding the "#version" directive (section 3.3 of the OpenGL Shading Language
 * specification requires "#version" before anything but comments and white space). GL object names
 * and the driver's compile result are parameters.
 */
module Shaders {
  import opened Wrappers

  datatype ShaderType = Vertex | TesselationControl | TesselationEvaluation | Geometry | Fragment | Compute

  /** The GL shader stages Compile can create. */
  datatype GlStage = VertexShader | GeometryShader | FragmentShader | ComputeShader

  const InvalidShaderType := "Invalid shader type"
  const CouldNotCreateShader := "Could not create shader"
  const VersionNotFirst := "Version directive must be first statement and may not be repeated"
  const UnknownError := "Unknown error"

  /** The shader type a GL stage is created for. */
  function StageType(g: GlStage): ShaderType
  {
    match g
    case VertexShader => Vertex
    case GeometryShader => Geometry
    case FragmentShader => Fragment
    case ComputeShader => Compute
  }

  /** Compile's type switch: the tessellation stages are commented out and fall to the error. */
  function GlShaderKind(t: ShaderType): (r: Result<GlStage, string>)
    ensures r.Failure? <==> t == TesselationControl || t == TesselationEvaluation
    ensures r.Failure? ==> r.error == InvalidShaderType
    ensures r.Success? ==> StageType(r.value) == t
  {
    match t
    case Vertex => Success(VertexShader)
    case Geometry => Success(GeometryShader)
    case Fragment => Success(FragmentShader)
    case Compute => Success(ComputeShader)
    case _ => Failure(InvalidShaderType)
  }

  /** Every GL stage is reached from exactly one shader type. */
  lemma GlShaderKindInverse(g: GlStage, t: ShaderType)
    ensures GlShaderKind(StageType(g)) == Success(g)
    ensures GlShaderKind(t) == Success(g) ==> t == StageType(g)
  {
  }

  /** pat occurs in s starting at index i. */
  predicate OccursAt(s: string, pat: string, i: int)
  {
    0 <= i && i + |pat| <= |s| && s[i..i + |pat|] == pat
  }

  /** std::string::find(pat, from): the first occurrence of pat at or after from, or none (npos). */
  function Find(s: string, pat: string, from: nat): (r: Option<nat>)
    ensures r.Some? ==> from <= r.value && OccursAt(s, pat, r.value)
    ensures forall j | from <= j && (r.None? || j < r.value) :: !OccursAt(s, pat, j)
    decreases |s| - from
  {
    if from + |pat| > |s| then None
    else if s[from..from + |pat|] == pat then Some(from)
    else Find(s, pat, from + 1)
  }

  const VersionDirective := "#version"
  const LineReset := "#line 1\n"

  /** std::string::find(c, from) for one character: its first index at or after from, or none. */
  function FindChar(s: string, c: char, from: nat): (r: Option<nat>)
    ensures r.Some? ==> from <= r.value < |s| && s[r.value] == c
    ensures forall k | from <= k < |s| && (r.None? || k < r.value) :: s[k] != c
    decreases |s| - from
  {
    if from >= |s| then None
    else if s[from] == c then Some(from)
    else FindChar(s, c, from + 1)
  }

  /**
   * Where the preamble goes: one past the first newline after the first "#version"; none when
   * "#version" is missing or no newline follows it.
   */
  function InsertionPoint(src: string): (r: Option<nat>)
    ensures Find(src, VersionDirective, 0).None? ==> r.None?
    ensures r.Some? ==>
      var v := Find(src, VersionDirective, 0).value;
      v + |VersionDirective| < r.value <= |src| && src[r.value - 1] == '\n'
      && forall k | v < k < r.value - 1 :: src[k] != '\n'
    ensures r.None? && Find(src, VersionDirective, 0).Some? ==>
      forall k | Find(src, VersionDirective, 0).value < k < |src| :: src[k] != '\n'
  {
    match Find(src, VersionDirective, 0)
    case None => None
    case Some(v) =>
      assert src[v..v + |VersionDirective|] == VersionDirective;
      assert forall k | v < k < v + |VersionDirective| :: src[k] == VersionDirective[k - v];
      match FindChar(src, '\n', v + 1)
      case None => None
      case Some(q) => Some(q + 1)
  }

  /** The line a macro contributes to the preamble. */
  function DefineLine(key: string, value: string): string
  {
    "#define " + key + " " + value + "\n"
  }

  /** The define lines for the keys of macros in the order the map is walked. */
  function DefineLineSeq(macros: map<string, string>, order: seq<string>): (lines: seq<string>)
    requires forall k | k in order :: k in macros
    ensures |lines| == |order|
    ensures forall i | 0 <= i < |order| :: lines[i] == DefineLine(order[i], macros[order[i]])
  {
    if order == [] then []
    else DefineLineSeq(macros, order[..|order| - 1]) + [DefineLine(order[|order| - 1], macros[order[|order| - 1]])]
  }

  /** String concatenation of parts, in order. */
  function Concat(parts: seq<string>): string
  {
    if parts == [] then "" else Concat(parts[..|parts| - 1]) + parts[|parts| - 1]
  }

  /** An unordered_map walk: every key exactly once, in some order the model does not fix. */
  predicate IsEnumeration(order: seq<string>, macros: map<string, string>)
  {
    (forall i, j | 0 <= i < j < |order| :: order[i] != order[j])
    && (forall k | k in order :: k in macros)
    && (forall k | k in macros :: k in order)
  }

  /** The text inserted into the source: define lines, then includes, then "#line 1". */
  function Preamble(macros: map<string, string>, order: seq<string>, includes: seq<string>): string
    requires forall k | k in order :: k in macros
  {
    Concat(DefineLineSeq(macros, order) + includes + [LineReset])
  }

  /** The source with block spliced in at the insertion point, or none when there is none. */
  function Splice(src: string, block: string): (r: Option<string>)
    ensures r.Some? <==> InsertionPoint(src).Some?
    ensures r.Some? ==> |r.value| == |src| + |block|
  {
    match InsertionPoint(src)
    case None => None
    case Some(p) => Some(src[..p] + block + src[p..])
  }

  /** What PrepareSource hands to the driver. */
  function Prepared(src: string, macros: map<string, string>, order: seq<string>, includes: seq<string>): Option<string>
    requires forall k | k in order :: k in macros
  {
    Splice(src, Preamble(macros, order, includes))
  }

  lemma {:induction false} ConcatAppend(a: seq<string>, b: seq<string>)
    ensures Concat(a + b) == Concat(a) + Concat(b)
    decreases |b|
  {
    if b == [] {
      assert a + b == a;
    } else {
      assert (a + b)[..|a + b| - 1] == a + b[..|b| - 1];
      ConcatAppend(a, b[..|b| - 1]);
    }
  }

  lemma ConcatSnoc(parts: seq<string>, last: string)
    ensures Concat(parts + [last]) == Concat(parts) + last
  {
    assert (parts + [last])[..|parts|] == parts;
  }

  lemma DefineLineSeqSnoc(macros: map<string, string>, order: seq<string>, i: nat)
    requires forall k | k in order :: k in macros
    requires i < |order|
    ensures DefineLineSeq(macros, order[..i + 1])
            == DefineLineSeq(macros, order[..i]) + [DefineLine(order[i], macros[order[i]])]
  {
    assert order[..i + 1][..i] == order[..i];
  }

  /** Each part sits in the concatenation right after the parts before it. */
  lemma ConcatPartAt(parts: seq<string>, i: nat)
    requires i < |parts|
    ensures OccursAt(Concat(parts), parts[i], |Concat(parts[..i])|)
  {
    assert parts == parts[..i] + [parts[i]] + parts[i + 1..];
    ConcatAppend(parts[..i] + [parts[i]], parts[i + 1..]);
    ConcatAppend(parts[..i], [parts[i]]);
    assert [parts[i]][..0] == [];
  }

  /** The preamble is the define lines, then the includes in insertion order, then "#line 1\n". */
  lemma PreambleLayout(macros: map<string, string>, order: seq<string>, includes: seq<string>)
    requires forall k | k in order :: k in macros
    ensures Preamble(macros, order, includes)
            == Concat(DefineLineSeq(macros, order)) + Concat(includes) + LineReset
  {
    ConcatAppend(DefineLineSeq(macros, order) + includes, [LineReset]);
    ConcatAppend(DefineLineSeq(macros, order), includes);
    assert [LineReset][..0] == [];
  }

  /** Whatever order the map is walked in, every macro's define line is in the preamble. */
  lemma PreambleDefinesEveryMacro(macros: map<string, string>, order: seq<string>, includes: seq<string>, key: string)
    requires IsEnumeration(order, macros) && key in macros
    ensures exists i :: OccursAt(Preamble(macros, order, includes), DefineLine(key, macros[key]), i)
  {
    var j :| 0 <= j < |order| && order[j] == key;
    var parts := DefineLineSeq(macros, order) + includes + [LineReset];
    assert parts[j] == DefineLine(key, macros[key]);
    ConcatPartAt(parts, j);
    assert OccursAt(Preamble(macros, order, includes), DefineLine(key, macros[key]), |Concat(parts[..j])|);
  }

  /**
   * A successful splice leaves the source around the block intact: removing the block gives the
   * source back, and the "#version" directive and the rest of its line come before the block.
   */
  lemma SpliceKeepsSource(src: string, block: string)
    requires Splice(src, block).Some?
    ensures var p := InsertionPoint(src).value; var r := Splice(src, block).value;
      r[p..p + |block|] == block && r[..p] + r[p + |block|..] == src
      && OccursAt(r, VersionDirective, Find(src, VersionDirective, 0).value)
      && Find(src, VersionDirective, 0).value + |VersionDirective| < p && r[p - 1] == '\n'
  {
    var p := InsertionPoint(src).value;
    var r := Splice(src, block).value;
    assert r[..p] == src[..p];
    assert r[p + |block|..] == src[p..];
    var v := Find(src, VersionDirective, 0).value;
    assert r[v..v + |VersionDirective|] == src[..p][v..v + |VersionDirective|];
  }

  /** Source text without "#version" anywhere cannot be prepared, wherever else it is malformed. */
  lemma NoVersionFails(src: string, block: string)
    requires forall i :: !OccursAt(src, VersionDirective, i)
    ensures Splice(src, block).None?
  {
  }

  /**
   * The splice as written: find('\n') returning npos is only asserted against, so in a release build
   * npos + 1 wraps to 0 and the block is inserted at the very start of the source.
   */
  function SpliceAsWritten(src: string, block: string): (r: Option<string>)
    ensures r.None? <==> Find(src, VersionDirective, 0).None?
  {
    match Find(src, VersionDirective, 0)
    case None => None
    case Some(v) =>
      var p := match FindChar(src, '\n', v + 1)
               case None => 0
               case Some(q) => q + 1;
      Some(src[..p] + block + src[p..])
  }

  /** Where a newline follows "#version", the splice as written and the corrected splice agree. */
  lemma SpliceAsWrittenAgrees(src: string, block: string)
    requires Splice(src, block).Some?
    ensures SpliceAsWritten(src, block) == Splice(src, block)
  {
  }

  /**
   * A source whose "#version" line is its last line without a newline: as written the preamble
   * lands in front of "#version", which then is no longer the first statement.
   */
  lemma SpliceAsWrittenMisplacesPreamble()
    ensures SpliceAsWritten("#version 330", LineReset) == Some(LineReset + "#version 330")
    ensures !OccursAt(LineReset + "#version 330", VersionDirective, 0)
    ensures Splice("#version 330", LineReset).None?
  {
    var src := "#version 330";
    assert OccursAt(src, VersionDirective, 0);
    assert Find(src, VersionDirective, 0) == Some(0);
    assert forall k | 1 <= k < |src| :: src[k] != '\n';
    assert FindChar(src, '\n', 1).None?;
    assert src[..0] == [] && src[0..] == src;
    assert SpliceAsWritten(src, LineReset) == Some(src[..0] + LineReset + src[0..]);
    assert src[..0] + LineReset + src[0..] == LineReset + src;
    assert (LineReset + "#version 330")[0] == '#' && (LineReset + "#version 330")[1] == 'l';
  }

  /** A shader object; handle is the GL shader name, 0 when none was created. */
  class Shader {
    var shaderType: ShaderType
    var source: string
    var includes: seq<string>
    var macros: map<string, string>
    var errorMessage: string
    var handle: nat

    constructor (shaderType: ShaderType, source: string)
      ensures this.shaderType == shaderType && this.source == source
      ensures includes == [] && macros == map[] && errorMessage == "" && handle == 0
    {
      this.shaderType := shaderType;
      this.source := source;
      includes := [];
      macros := map[];
      errorMessage := "";
      handle := 0;
    }

    /** Inserts or overwrites one macro. */
    method SetMacro(key: string, value: string)
      modifies this`macros
      ensures macros == old(macros)[key := value]
    {
      macros := macros[key := value];
    }

    /** Removes one macro; a key that is not defined is ignored. */
    method UnsetMacro(key: string)
      modifies this`macros
      ensures macros == old(macros) - {key}
    {
      macros := macros - {key};
    }

    method SetSource(source: string)
      modifies this`source
      ensures this.source == source
    {
      this.source := source;
    }

    method AddInclude(text: string)
      modifies this`includes
      ensures includes == old(includes) + [text]
    {
      includes := includes + [text];
    }

    method SetType(shaderType: ShaderType)
      modifies this`shaderType
      ensures this.shaderType == shaderType
    {
      this.shaderType := shaderType;
    }

    /** CStdGLShader::Clear: deletes the GL shader if any, then empties the text state. */
    method Clear()
      modifies this`handle, this`source, this`macros, this`includes, this`errorMessage
      ensures handle == 0 && source == "" && macros == map[] && includes == [] && errorMessage == ""
    {
      if handle != 0 {
        handle := 0;
      }
      source := "";
      macros := map[];
      includes := [];
      errorMessage := "";
    }

    /** The "#define" part of the preamble, one line per key in walk order. */
    static method DefineBlock(m: map<string, string>, order: seq<string>) returns (buffer: string)
      requires forall k | k in order :: k in m
      ensures buffer == Concat(DefineLineSeq(m, order))
    {
      buffer := "";
      var i := 0;
      while i < |order|
        invariant 0 <= i <= |order|
        invariant buffer == Concat(DefineLineSeq(m, order[..i]))
      {
        DefineLineSeqSnoc(m, order, i);
        ConcatSnoc(DefineLineSeq(m, order[..i]), DefineLine(order[i], m[order[i]]));
        buffer := buffer + DefineLine(order[i], m[order[i]]);
        i := i + 1;
      }
      assert order[..i] == order;
    }

    /** Appends each of parts to buffer in order. */
    static method AppendAll(prefix: string, parts: seq<string>) returns (buffer: string)
      ensures buffer == prefix + Concat(parts)
    {
      buffer := prefix;
      var j := 0;
      while j < |parts|
        invariant 0 <= j <= |parts|
        invariant buffer == prefix + Concat(parts[..j])
      {
        assert parts[..j + 1] == parts[..j] + [parts[j]];
        ConcatSnoc(parts[..j], parts[j]);
        buffer := buffer + parts[j];
        j := j + 1;
      }
      assert parts[..j] == parts;
    }

    /**
     * Builds the preamble and splices it into the source; none stands for the exception thrown when
     * there is no "#version". order is the walk order of the macro table.
     */
    method PrepareSource(order: seq<string>) returns (r: Option<string>)
      requires IsEnumeration(order, macros)
      ensures r == Prepared(source, macros, order, includes)
    {
      var point := InsertionPoint(source);
      if point.None? {
        return None;
      }
      var buffer := DefineBlock(macros, order);
      buffer := AppendAll(buffer, includes);
      buffer := buffer + LineReset;
      PreambleLayout(macros, order, includes);
      var p := point.value;
      r := Some(source[..p] + buffer + source[p..]);
    }

    /**
     * CStdGLShader::Compile. created is the name glCreateShader returns, compiled the driver's
     * compile status and infoLog its log (empty when the log length is 0). Success carries the text
     * handed to the driver, Failure the message of the exception thrown.
     */
    method Compile(created: nat, compiled: bool, infoLog: string, order: seq<string>)
      returns (r: Result<string, string>)
      requires IsEnumeration(order, macros)
      modifies this`handle, this`errorMessage
      ensures errorMessage == (if old(handle) != 0 then "" else old(errorMessage))
      ensures GlShaderKind(shaderType).Failure? ==> r == Failure(InvalidShaderType) && handle == old(handle)
      ensures GlShaderKind(shaderType).Success? ==> handle == created
      ensures GlShaderKind(shaderType).Success? && created == 0 ==> r == Failure(CouldNotCreateShader)
      ensures GlShaderKind(shaderType).Success? && created != 0 ==>
        match Prepared(source, macros, order, includes)
        case None => r == Failure(VersionNotFirst)
        case Some(text) =>
          r == (if compiled then Success(text) else if infoLog != "" then Failure(infoLog) else Failure(UnknownError))
    {
      if handle != 0 {
        errorMessage := "";
      }
      var kind := GlShaderKind(shaderType);
      if kind.Failure? {
        return Failure(kind.error);
      }
      handle := created;
      if handle == 0 {
        return Failure(CouldNotCreateShader);
      }
      var text := PrepareSource(order);
      if text.None? {
        return Failure(VersionNotFirst);
      }
      if !compiled {
        if infoLog != "" {
          return Failure(infoLog);
        }
        return Failure(UnknownError);
      }
      r := Success(text.value);
    }
  }
}
