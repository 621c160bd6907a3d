/** The shader-template registry of the material shader manager: a map,
    filled on demand, from a shader template class to the one shader id
    created for it. */
module Shaders {

  /** A `Class<? extends SXRShader>`: compared by identity, here by name. */
  datatype ShaderClass = ShaderClass(name: string)

  /** An `SXRShaderId`: an object remembering the template class it was made for. */
  class ShaderId {
    const ID: ShaderClass

    constructor (shaderClass: ShaderClass)
      ensures ID == shaderClass
    {
      ID := shaderClass;
    }
  }

  class ShaderManager {
    var shaderTemplates: map<ShaderClass, ShaderId>

    /** Every stored id was made for the class it is stored under, so no
        id stands for two classes. */
    ghost predicate Valid()
      reads this
    {
      forall c :: c in shaderTemplates ==> shaderTemplates[c].ID == c
    }

    constructor ()
      ensures Valid() && shaderTemplates == map[]
    {
      shaderTemplates := map[];
    }

    /** Looks the class up; on a miss, creates a new id for it and records it. */
    method GetShaderType(shaderClass: ShaderClass) returns (shaderId: ShaderId)
      requires Valid()
      modifies this
      ensures Valid()
      ensures shaderClass in shaderTemplates && shaderTemplates[shaderClass] == shaderId
      ensures shaderId.ID == shaderClass
      ensures shaderClass in old(shaderTemplates) ==>
                shaderId == old(shaderTemplates)[shaderClass] &&
                shaderTemplates == old(shaderTemplates)
      ensures shaderClass !in old(shaderTemplates) ==>
                fresh(shaderId) &&
                shaderTemplates == old(shaderTemplates)[shaderClass := shaderId]
    {
      if shaderClass in shaderTemplates {
        shaderId := shaderTemplates[shaderClass];
      } else {
        shaderId := new ShaderId(shaderClass);
        shaderTemplates := shaderTemplates[shaderClass := shaderId];
      }
    }

    /** Registers the template class of an existing id. The id stored for a
        class seen for the first time is a new one, not the argument. */
    method AddShaderID(shaderID: ShaderId)
      requires Valid()
      modifies this
      ensures Valid()
      ensures shaderID.ID in shaderTemplates
      ensures shaderID.ID in old(shaderTemplates) ==> shaderTemplates == old(shaderTemplates)
      ensures shaderID.ID !in old(shaderTemplates) ==>
                var stored := shaderTemplates[shaderID.ID];
                fresh(stored) && stored != shaderID &&
                shaderTemplates == old(shaderTemplates)[shaderID.ID := stored]
    {
      var _ := GetShaderType(shaderID.ID);
    }
  }

  /** Distinct classes are never given the same id. */
  lemma IdsAreDistinct(manager: ShaderManager, c1: ShaderClass, c2: ShaderClass)
    requires manager.Valid()
    requires c1 in manager.shaderTemplates && c2 in manager.shaderTemplates
    requires c1 != c2
    ensures manager.shaderTemplates[c1] != manager.shaderTemplates[c2]
  {
  }

  /** Two lookups of the same class return the same id, and the second
      leaves the registry as the first left it. */
  method LookupTwice(manager: ShaderManager, shaderClass: ShaderClass)
    returns (first: ShaderId, second: ShaderId)
    requires manager.Valid()
    modifies manager
    ensures manager.Valid()
    ensures first == second && first.ID == shaderClass
    ensures shaderClass in old(manager.shaderTemplates) ==>
              manager.shaderTemplates == old(manager.shaderTemplates)
    ensures shaderClass !in old(manager.shaderTemplates) ==>
              manager.shaderTemplates == old(manager.shaderTemplates)[shaderClass := first]
  {
    first := manager.GetShaderType(shaderClass);
    ghost var between := manager.shaderTemplates;
    second := manager.GetShaderType(shaderClass);
    assert manager.shaderTemplates == between;
  }
}
