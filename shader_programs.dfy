/**
 * CStdShaderProgram / CStdGLShaderProgram (Shader.h, Shader.cpp): the list of attached shaders, the
 * process-wide current program that Select and Deselect maintain, and the per-program caches of
 * attribute and uniform locations keyed by group prefix plus name. The static current-program
 * pointer and the GL calls made live in a GlContext object; GL results are parameters.
 */
module ShaderPrograms {
  import opened Shaders
  import opened Wrappers

  datatype LocationKind = AttributeLocation | UniformLocation

  /** The GL calls whose order and arguments the model keeps. */
  datatype GlCall =
    | CreateProgram
    | AttachShader(program: nat, shader: nat)
    | DetachShader(program: nat, shader: nat)
    | DeleteProgram(program: nat)
    | UseProgram(program: nat)
    | GetLocation(program: nat, kind: LocationKind, name: string)
    | SetValue(kind: LocationKind, location: int)

  /** The GL context: the current program (CStdShaderProgram::currentShaderProgram) and the call log. */
  class GlContext {
    var current: ShaderProgram?
    var calls: seq<GlCall>

    constructor ()
      ensures current == null && calls == []
    {
      current := null;
      calls := [];
    }
  }

  /** No element occurs twice. */
  predicate NoDuplicates<T(==)>(s: seq<T>)
  {
    forall i, j | 0 <= i < j < |s| :: s[i] != s[j]
  }

  /** A location cache never holds -1, the value GL returns for an unknown name. */
  predicate CacheValid(cache: map<string, int>)
  {
    forall k | k in cache :: cache[k] != -1
  }

  /** Outcome of one SetAttribute lookup: the result, the new cache and the location set, if any. */
  datatype Lookup = Lookup(ok: bool, cache: map<string, int>, set_: Option<int>)

  /**
   * One SetAttribute lookup of realKey in cache; located is what the GL location query returns
   * for realKey, consulted only on a miss.
   */
  function CacheLookup(cache: map<string, int>, realKey: string, located: int): (r: Lookup)
    ensures realKey in cache ==> r == Lookup(true, cache, Some(cache[realKey]))
    ensures realKey !in cache && located == -1 ==> r == Lookup(false, cache, None)
    ensures realKey !in cache && located != -1 ==> r == Lookup(true, cache[realKey := located], Some(located))
  {
    if realKey in cache then Lookup(true, cache, Some(cache[realKey]))
    else if located == -1 then Lookup(false, cache, None)
    else Lookup(true, cache[realKey := located], Some(located))
  }

  /**
   * A lookup keeps the cache free of -1, adds at most the one key realKey, never changes a cached
   * location, succeeds exactly when it sets a value, and the value it sets is what the cache now
   * maps realKey to.
   */
  lemma CacheLookupKeepsCache(cache: map<string, int>, realKey: string, located: int)
    requires CacheValid(cache)
    ensures var r := CacheLookup(cache, realKey, located);
      CacheValid(r.cache)
      && r.cache.Keys <= cache.Keys + {realKey}
      && (forall k | k in cache :: k in r.cache && r.cache[k] == cache[k])
      && (r.ok <==> r.set_.Some?)
      && (r.ok ==> realKey in r.cache && r.set_ == Some(r.cache[realKey]) && r.cache[realKey] != -1)
  {
  }

  /** Once a key is cached, later lookups of it succeed whatever GL would now answer. */
  lemma CachedKeyAlwaysHits(cache: map<string, int>, realKey: string, located: int, later: int)
    requires CacheValid(cache)
    requires CacheLookup(cache, realKey, located).ok
    ensures CacheLookup(CacheLookup(cache, realKey, located).cache, realKey, later)
            == Lookup(true, CacheLookup(cache, realKey, located).cache, CacheLookup(cache, realKey, located).set_)
  {
  }

  /** The detach calls Clear issues for the attached shaders, in list order. */
  function DetachCalls(program: nat, shaders: seq<Shader>): seq<GlCall>
    reads shaders
  {
    if shaders == [] then []
    else DetachCalls(program, shaders[..|shaders| - 1]) + [DetachShader(program, shaders[|shaders| - 1].handle)]
  }

  class ShaderProgram {
    var shaders: seq<Shader>
    var program: nat
    var attributeLocations: map<string, int>
    var uniformLocations: map<string, int>
    var group: string

    ghost predicate Valid()
      reads this
    {
      NoDuplicates(shaders) && CacheValid(attributeLocations) && CacheValid(uniformLocations)
    }

    constructor ()
      ensures Valid()
      ensures shaders == [] && program == 0 && attributeLocations == map[] && uniformLocations == map[]
      ensures group == ""
    {
      shaders := [];
      program := 0;
      attributeLocations := map[];
      uniformLocations := map[];
      group := "";
    }

    /** Creates the GL program on first use; created is the name glCreateProgram returns. */
    method EnsureProgram(created: nat, gl: GlContext)
      requires program != 0 || created != 0
      modifies this`program, gl`calls
      ensures program == (if old(program) == 0 then created else old(program))
      ensures gl.calls == old(gl.calls) + (if old(program) == 0 then [CreateProgram] else [])
      ensures program != 0
    {
      if program == 0 {
        program := created;
        gl.calls := gl.calls + [CreateProgram];
      }
    }

    /**
     * Attaches shader unless it is already attached. null stands for a shader that is not a GL
     * shader, which AddShaderInt refuses.
     */
    method AddShader(shader: Shader?, created: nat, gl: GlContext) returns (ok: bool)
      requires Valid()
      requires program != 0 || created != 0
      modifies this`program, this`shaders, gl`calls
      ensures Valid()
      ensures program == (if old(program) == 0 then created else old(program))
      ensures ok <==> shader != null
      ensures shaders == (if shader == null || shader in old(shaders) then old(shaders) else old(shaders) + [shader])
      ensures gl.calls == old(gl.calls) + (if old(program) == 0 then [CreateProgram] else [])
                          + (if shader == null || shader in old(shaders) then [] else [AttachShader(program, shader.handle)])
    {
      EnsureProgram(created, gl);
      if shader in shaders {
        return true;
      }
      if shader != null {
        gl.calls := gl.calls + [AttachShader(program, shader.handle)];
        shaders := shaders + [shader];
        return true;
      }
      return false;
    }

    /** Makes this the current program, issuing glUseProgram only when it is not current already. */
    method Select(gl: GlContext)
      requires gl.current != this ==> program != 0
      modifies gl
      ensures gl.current == this
      ensures gl.calls == old(gl.calls) + (if old(gl.current) != this then [UseProgram(program)] else [])
    {
      if gl.current != this {
        gl.calls := gl.calls + [UseProgram(program)];
        gl.current := this;
      }
    }

    /** Leaves no program current; a no-op when none is. */
    static method Deselect(gl: GlContext)
      modifies gl
      ensures gl.current == null
      ensures gl.calls == old(gl.calls) + (if old(gl.current) != null then [UseProgram(0)] else [])
    {
      if gl.current != null {
        gl.calls := gl.calls + [UseProgram(0)];
        gl.current := null;
      }
    }

    /**
     * Detaches every attached shader, deletes the GL program if there is one and empties both
     * caches and the shader list. The current-program pointer is not touched.
     */
    method Clear(gl: GlContext)
      requires Valid()
      modifies this`program, this`shaders, this`attributeLocations, this`uniformLocations, gl`calls
      ensures Valid()
      ensures program == 0 && shaders == [] && attributeLocations == map[] && uniformLocations == map[]
      ensures gl.calls == old(gl.calls) + DetachCalls(old(program), old(shaders))
                          + (if old(program) != 0 then [DeleteProgram(old(program))] else [])
    {
      var i := 0;
      while i < |shaders|
        invariant 0 <= i <= |shaders|
        invariant program == old(program) && shaders == old(shaders)
        invariant gl.calls == old(gl.calls) + DetachCalls(program, shaders[..i])
      {
        assert shaders[..i + 1][..i] == shaders[..i];
        gl.calls := gl.calls + [DetachShader(program, shaders[i].handle)];
        i := i + 1;
      }
      assert shaders[..i] == shaders;
      if program != 0 {
        gl.calls := gl.calls + [DeleteProgram(program)];
        program := 0;
      }
      attributeLocations := map[];
      uniformLocations := map[];
      shaders := [];
    }

    /** The cache SetAttribute uses for kind. */
    function Cache(kind: LocationKind): map<string, int>
      reads this
    {
      if kind == AttributeLocation then attributeLocations else uniformLocations
    }

    /**
     * Sets an attribute or uniform named key in the current group. locationOf is the GL location
     * query for this program; it is consulted, and logged, only on a cache miss.
     */
    method SetAttribute(kind: LocationKind, key: string, locationOf: string -> int, gl: GlContext)
      returns (ok: bool)
      requires Valid() && program != 0
      modifies this`attributeLocations, this`uniformLocations, gl`calls
      ensures Valid()
      ensures var r := CacheLookup(old(Cache(kind)), group + key, locationOf(group + key));
        ok == r.ok && Cache(kind) == r.cache
        && gl.calls == old(gl.calls)
                       + (if group + key in old(Cache(kind)) then [] else [GetLocation(program, kind, group + key)])
                       + (if r.set_.Some? then [SetValue(kind, r.set_.value)] else [])
      ensures kind == AttributeLocation ==> uniformLocations == old(uniformLocations)
      ensures kind == UniformLocation ==> attributeLocations == old(attributeLocations)
    {
      var realKey := group + key;
      var locations := Cache(kind);
      var location: int;
      if realKey in locations {
        location := locations[realKey];
      } else {
        location := locationOf(realKey);
        gl.calls := gl.calls + [GetLocation(program, kind, realKey)];
        if location == -1 {
          return false;
        }
        if kind == AttributeLocation {
          attributeLocations := attributeLocations[realKey := location];
        } else {
          uniformLocations := uniformLocations[realKey := location];
        }
      }
      gl.calls := gl.calls + [SetValue(kind, location)];
      ok := true;
    }

    /** Lookups after this use the prefix name + "."; groups do not nest. */
    method EnterGroup(name: string)
      modifies this`group
      ensures group == name + "."
    {
      group := name + ".";
    }

    method LeaveGroup()
      modifies this`group
      ensures group == ""
    {
      group := "";
    }
  }
}
