/** The parameter store of a light source component (class `Light` of the
    native engine): named float, vector and matrix uniforms, a per-shader
    "needs update" table, an enable flag and a table of uniform offsets. */
module Lights {
  import opened Wrappers

  /** glm::vec3, glm::vec4 and glm::mat4: the store only copies and compares them. */
  datatype Vec3 = Vec3(x: real, y: real, z: real)
  datatype Vec4 = Vec4(x: real, y: real, z: real, w: real)
  datatype Mat4 = Mat4(c0: Vec4, c1: Vec4, c2: Vec4, c3: Vec4)

  /** The integer id of a GL shader program, the key of the per-shader tables. */
  datatype Program = Program(id: int)

  /** The dirty table after every shader entry has been marked as needing an
      update: the same shader keys, each mapped to true. */
  function AllDirty(dirty: map<Program, bool>): (r: map<Program, bool>)
    ensures r.Keys == dirty.Keys
    ensures forall shader :: shader in r ==> r[shader]
  {
    map shader | shader in dirty :: true
  }

  /** What `floats_[key]` reads: the stored float, or the 0 that
      std::map::operator[] inserts for a missing key. */
  function CurrentFloat(floats: map<string, real>, key: string): (r: real)
    ensures key in floats ==> r == floats[key]
    ensures key !in floats ==> r == 0.0
  {
    if key in floats then floats[key] else 0.0
  }

  /** The message thrown by a getter that misses: it names the getter and the key. */
  function NotFound(getter: string, key: string): (r: string)
    ensures |r| == 7 + |getter| + 5 + |key| + 10
    ensures r[..7] == "Light::" && r[7..7 + |getter|] == getter
    ensures r[7 + |getter| + 5..|r| - 10] == key && r[|r| - 10..] == " not found"
  {
    "Light::" + getter + "() : " + key + " not found"
  }

  class Light {
    /** Inherited from Component; the component's constructor sets it. */
    var enabled: bool
    var shadowMapIndex: int
    var lightID: string
    /** Shader program id to "light uniforms must be re-sent". */
    var dirty: map<Program, bool>
    var floats: map<string, real>
    var vec3s: map<string, Vec3>
    var vec4s: map<string, Vec4>
    var mat4s: map<string, Mat4>
    /** Uniform name to (shader id to GL uniform offset). */
    var offsets: map<string, map<Program, int>>

    /** A fresh light: no parameters, no shadow map slot, empty ID. */
    constructor (componentEnabled: bool)
      ensures enabled == componentEnabled && shadowMapIndex == -1 && lightID == ""
      ensures dirty == map[] && offsets == map[]
      ensures floats == map[] && vec3s == map[] && vec4s == map[] && mat4s == map[]
    {
      enabled := componentEnabled;
      shadowMapIndex := -1;
      lightID := "";
      dirty := map[];
      floats := map[];
      vec3s := map[];
      vec4s := map[];
      mat4s := map[];
      offsets := map[];
    }

    /** Marks the light as needing update for all shaders using it. */
    method SetDirty()
      modifies this`dirty
      ensures dirty == AllDirty(old(dirty))
    {
      var pending := dirty.Keys;
      while pending != {}
        invariant pending <= dirty.Keys
        invariant dirty.Keys == old(dirty).Keys
        invariant forall shader :: shader in dirty && shader !in pending ==> dirty[shader]
        decreases pending
      {
        var shader :| shader in pending;
        dirty := dirty[shader := true];
        pending := pending - {shader};
      }
      assert dirty == AllDirty(old(dirty));
    }

    /** Turning the light on or off dirties every shader, whatever the new value. */
    method SetEnable(enable: bool)
      modifies this`enabled, this`dirty
      ensures enabled == enable
      ensures dirty == AllDirty(old(dirty))
    {
      enabled := enable;
      SetDirty();
    }

    method GetFloat(key: string) returns (r: Result<real, string>)
      ensures key in floats ==> r == Ok(floats[key])
      ensures key !in floats ==> r == Err(NotFound("getFloat", key))
    {
      if key in floats {
        r := Ok(floats[key]);
      } else {
        r := Err(NotFound("getFloat", key));
      }
    }

    /** The key always ends up holding `value`; the shaders are dirtied only
        when the light is enabled and the value read through operator[]
        (0 for a missing key) differs from `value`. */
    method SetFloat(key: string, value: real)
      modifies this`floats, this`dirty
      ensures floats == old(floats)[key := value]
      ensures dirty == if enabled && CurrentFloat(old(floats), key) != value
                       then AllDirty(old(dirty)) else old(dirty)
    {
      if key !in floats {
        // operator[] default-inserts the missing key before the comparison
        floats := floats[key := 0.0];
      }
      if floats[key] != value {
        floats := floats[key := value];
        if enabled {
          SetDirty();
        }
      }
    }

    method GetVec3(key: string) returns (r: Result<Vec3, string>)
      ensures key in vec3s ==> r == Ok(vec3s[key])
      ensures key !in vec3s ==> r == Err(NotFound("getVec3", key))
    {
      if key in vec3s {
        r := Ok(vec3s[key]);
      } else {
        r := Err(NotFound("getVec3", key));
      }
    }

    method SetVec3(key: string, vector: Vec3)
      modifies this`vec3s, this`dirty
      ensures vec3s == old(vec3s)[key := vector]
      ensures dirty == if enabled then AllDirty(old(dirty)) else old(dirty)
    {
      vec3s := vec3s[key := vector];
      if enabled {
        SetDirty();
      }
    }

    method GetVec4(key: string) returns (r: Result<Vec4, string>)
      ensures key in vec4s ==> r == Ok(vec4s[key])
      ensures key !in vec4s ==> r == Err(NotFound("getVec4", key))
    {
      if key in vec4s {
        r := Ok(vec4s[key]);
      } else {
        r := Err(NotFound("getVec4", key));
      }
    }

    method SetVec4(key: string, vector: Vec4)
      modifies this`vec4s, this`dirty
      ensures vec4s == old(vec4s)[key := vector]
      ensures dirty == if enabled then AllDirty(old(dirty)) else old(dirty)
    {
      vec4s := vec4s[key := vector];
      if enabled {
        SetDirty();
      }
    }

    /** `matrix` stands for the caller's reference argument: `result` is its
        value afterwards. */
    method GetMat4(key: string, matrix: Mat4) returns (found: bool, result: Mat4)
      ensures found <==> key in mat4s
      ensures result == if found then mat4s[key] else matrix
    {
      if key in mat4s {
        found, result := true, mat4s[key];
      } else {
        found, result := false, matrix;
      }
    }

    method SetMat4(key: string, matrix: Mat4)
      modifies this`mat4s, this`dirty
      ensures mat4s == old(mat4s)[key := matrix]
      ensures dirty == if enabled then AllDirty(old(dirty)) else old(dirty)
    {
      mat4s := mat4s[key := matrix];
      if enabled {
        SetDirty();
      }
    }

    /** The GL uniform offset of `key` in program `programId`, or -1 when
        either lookup misses. */
    method GetOffset(key: string, programId: Program) returns (offset: int)
      ensures key in offsets && programId in offsets[key] ==> offset == offsets[key][programId]
      ensures !(key in offsets && programId in offsets[key]) ==> offset == -1
    {
      if key in offsets {
        var programOffsets := offsets[key];
        if programId in programOffsets {
          return programOffsets[programId];
        }
      }
      return -1;
    }

    method GetLightID() returns (id: string)
      ensures id == lightID
    {
      id := lightID;
    }

    method SetLightID(id: string)
      modifies this`lightID
      ensures lightID == id
    {
      lightID := id;
    }
  }

  /** A float written with setFloat is what getFloat reads back. */
  method FloatRoundTrip(light: Light, key: string, value: real) returns (r: Result<real, string>)
    modifies light
    ensures r == Ok(value)
    ensures light.floats == old(light.floats)[key := value]
  {
    light.SetFloat(key, value);
    r := light.GetFloat(key);
  }

  /** Setting a missing float to 0 stores the key but leaves the dirty table alone. */
  method ZeroOnMissingKey(light: Light, key: string)
    requires key !in light.floats
    modifies light
    ensures light.floats == old(light.floats)[key := 0.0]
    ensures light.dirty == old(light.dirty)
  {
    light.SetFloat(key, 0.0);
  }

  /** A matrix written with setMat4 is found and copied out by getMat4. */
  method Mat4RoundTrip(light: Light, key: string, matrix: Mat4, scratch: Mat4)
    returns (found: bool, result: Mat4)
    modifies light
    ensures found && result == matrix
  {
    light.SetMat4(key, matrix);
    found, result := light.GetMat4(key, scratch);
  }

  /** setLightID followed by getLightID returns the ID that was set. */
  method LightIDRoundTrip(light: Light, id: string) returns (r: string)
    modifies light
    ensures r == id
  {
    light.SetLightID(id);
    r := light.GetLightID();
  }
}
