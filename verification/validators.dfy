/**
 * Resolution of a validator by its name: built-in validators and the
 * validators exported by user extensions, where an extension overrides a
 * built-in of the same name but two extensions may not share a name.
 */
module Validators {
  import opened Wrappers

  /** A validator class, known by its class name and by the `name` its instances report. */
  datatype ValidatorClass = ValidatorClass(className: string, name: string)

  datatype LoadError =
    | DuplicateExtension(name: string, className: string)  // two extension classes report `name`
    | NotDefined(validatorName: string)                    // no class reports the requested name

  /** `s` back to front. */
  function Reverse<T>(s: seq<T>): (r: seq<T>)
    ensures |r| == |s|
    ensures forall i :: 0 <= i < |s| ==> r[i] == s[|s| - 1 - i]
  {
    if s == [] then [] else Reverse(s[1..]) + [s[0]]
  }

  /** No two classes report the same validator name. */
  ghost predicate DistinctNames(classes: seq<ValidatorClass>) {
    forall i, j :: 0 <= i < j < |classes| ==> classes[i].name != classes[j].name
  }

  /**
   * The class that answers to `name`: the last one in `classes` reporting it,
   * which is the first one met when walking the sequence backwards.
   */
  function Resolve(classes: seq<ValidatorClass>, name: string): (r: Option<ValidatorClass>)
    ensures r.Some? ==> r.value.name == name && r.value in classes
    ensures r.None? <==> forall c :: c in classes ==> c.name != name
  {
    if classes == [] then None
    else if classes[|classes| - 1].name == name then Some(classes[|classes| - 1])
    else
      var r := Resolve(classes[..|classes| - 1], name);
      assert forall c :: c in classes ==> c in classes[..|classes| - 1] || c == classes[|classes| - 1];
      r
  }

  /** The class at `j` reports `name` and none after it does, so it answers to `name`. */
  lemma {:induction false} ResolveLastNamed(classes: seq<ValidatorClass>, name: string, j: nat)
    requires j < |classes| && classes[j].name == name
    requires forall k :: j < k < |classes| ==> classes[k].name != name
    ensures Resolve(classes, name) == Some(classes[j])
  {
    if j < |classes| - 1 {
      var front := classes[..|classes| - 1];
      ResolveLastNamed(front, name, j);
    }
  }

  /** Names found in the later part take precedence over names in the earlier part. */
  lemma {:induction false} ResolveAppend(front: seq<ValidatorClass>, back: seq<ValidatorClass>, name: string)
    ensures Resolve(front + back, name) == if Resolve(back, name).Some? then Resolve(back, name) else Resolve(front, name)
  {
    if back != [] {
      var all := front + back;
      assert all[..|all| - 1] == front + back[..|back| - 1];
      assert all[|all| - 1] == back[|back| - 1];
      ResolveAppend(front, back[..|back| - 1], name);
    } else {
      assert front + back == front;
    }
  }

  /**
   * An extension reporting `name` wins over any built-in with the same name;
   * with distinct extension names it is that very extension class.
   */
  lemma ExtensionWins(builtIns: seq<ValidatorClass>, extensions: seq<ValidatorClass>, j: nat)
    requires j < |extensions| && DistinctNames(extensions)
    ensures Resolve(builtIns + extensions, extensions[j].name) == Some(extensions[j])
  {
    ResolveLastNamed(extensions, extensions[j].name, j);
    ResolveAppend(builtIns, extensions, extensions[j].name);
  }

  /** Without an extension of that name, resolution falls back to the built-ins. */
  lemma BuiltInFallback(builtIns: seq<ValidatorClass>, extensions: seq<ValidatorClass>, name: string)
    requires forall c :: c in extensions ==> c.name != name
    ensures Resolve(builtIns + extensions, name) == Resolve(builtIns, name)
  {
    ResolveAppend(builtIns, extensions, name);
  }

  /**
   * Keys a plain JavaScript object answers to through `Object.prototype`, so
   * that `key in {}` already holds for them.
   */
  const InheritedKeys: set<string> := {
    "constructor", "toString", "toLocaleString", "valueOf", "hasOwnProperty",
    "isPrototypeOf", "propertyIsEnumerable", "__proto__", "__defineGetter__",
    "__defineSetter__", "__lookupGetter__", "__lookupSetter__"}

  /**
   * The duplicate check as written: `validator.name in map` on an object
   * literal is also true for an inherited key, so a class whose name is one
   * of them counts as a repeat even when it is the first of its name.
   */
  function SameNameAsWritten(classes: seq<ValidatorClass>): (rejected: bool)
    ensures rejected <==> !DistinctNames(classes) || exists c :: c in classes && c.name in InheritedKeys
  {
    if classes == [] then false
    else
      var front := classes[..|classes| - 1];
      var last := classes[|classes| - 1];
      assert forall c :: c in classes <==> c in front || c == last;
      assert DistinctNames(classes) <==> DistinctNames(front) && forall c :: c in front ==> c.name != last.name by {
        if DistinctNames(front) && forall c :: c in front ==> c.name != last.name {
          forall i, j | 0 <= i < j < |classes| ensures classes[i].name != classes[j].name {
            if j < |classes| - 1 {
              assert front[i] == classes[i] && front[j] == classes[j];
            } else {
              assert classes[i] in front;
            }
          }
        }
        if DistinctNames(classes) {
          forall c | c in front ensures c.name != last.name {
            var i :| 0 <= i < |front| && front[i] == c;
            assert classes[i] == c;
          }
        }
      }
      SameNameAsWritten(front) || last.name in InheritedKeys || exists c :: c in front && c.name == last.name
  }

  /**
   * A single extension validator named after an inherited key is refused as
   * written, although no two extension names clash; the corrected check
   * (`ValidatorLoader.CheckSameNameValidator`) accepts it.
   */
  lemma InheritedNameRejected(className: string, name: string)
    requires name in InheritedKeys
    ensures DistinctNames([ValidatorClass(className, name)])
    ensures SameNameAsWritten([ValidatorClass(className, name)])
  {
    assert ValidatorClass(className, name) in [ValidatorClass(className, name)];
  }

  class ValidatorLoader {
    /** Module paths of the user's extensions. */
    const extensions: seq<string>

    /** An absent extension option stands for no extensions. */
    constructor (extensions: Option<seq<string>>)
      ensures this.extensions == extensions.GetOr([])
      ensures extensions.None? ==> this.extensions == []
    {
      this.extensions := extensions.GetOr([]);
    }

    /**
     * Registers each class's name in turn and stops at the first class whose
     * name is already registered. It passes exactly when the names are distinct;
     * otherwise it reports the first class that repeats an earlier name.
     */
    method CheckSameNameValidator(classes: seq<ValidatorClass>) returns (clash: Option<LoadError>)
      ensures clash.None? <==> DistinctNames(classes)
      ensures clash.Some? ==>
        exists j :: (0 <= j < |classes|
          && clash.value == DuplicateExtension(classes[j].name, classes[j].className)
          && DistinctNames(classes[..j])
          && exists i :: 0 <= i < j && classes[i].name == classes[j].name)
    {
      var registered: map<string, ValidatorClass> := map[];
      for j := 0 to |classes|
        invariant DistinctNames(classes[..j])
        invariant forall name :: name in registered <==> exists i :: 0 <= i < j && classes[i].name == name
      {
        if classes[j].name in registered {
          var i :| 0 <= i < j && classes[i].name == classes[j].name;
          assert !DistinctNames(classes) by {
            assert classes[i].name == classes[j].name;
          }
          return Some(DuplicateExtension(classes[j].name, classes[j].className));
        }
        registered := registered[classes[j].name := classes[j]];
        assert DistinctNames(classes[..j + 1]) by {
          forall a, b | 0 <= a < b < j + 1 ensures classes[a].name != classes[b].name {
            if b < j {
              assert classes[..j][a] == classes[a] && classes[..j][b] == classes[b];
            }
          }
        }
      }
      assert classes[..|classes|] == classes;
      return None;
    }

    /**
     * `load`: the duplicate check over the extension classes always runs (an
     * empty extension list is still truthy), then the first class reporting
     * `validatorName` in the reversed `builtIns ++ extensions` is instantiated.
     * `builtInClasses` is what the built-in folder exports, flattened;
     * `exportedValidators` gives the `validators` entry of the merged
     * extension modules, if any.
     */
    method Load(
      validatorName: string,
      builtInClasses: seq<ValidatorClass>,
      exportedValidators: seq<string> -> Option<seq<ValidatorClass>>
    ) returns (r: Result<ValidatorClass, LoadError>)
      ensures var ext := exportedValidators(extensions).GetOr([]);
        r.Failure? && r.error.DuplicateExtension? <==> !DistinctNames(ext)
      ensures var ext := exportedValidators(extensions).GetOr([]);
        DistinctNames(ext) ==>
          r == match Resolve(builtInClasses + ext, validatorName)
               case Some(c) => Success(c)
               case None => Failure(NotDefined(validatorName))
    {
      var extensionClasses := exportedValidators(extensions).GetOr([]);
      var clash := CheckSameNameValidator(extensionClasses);
      if clash.Some? {
        return Failure(clash.value);
      }
      var all := builtInClasses + extensionClasses;
      var validatorClasses := Reverse(all);
      for i := 0 to |validatorClasses|
        invariant forall k :: |all| - i <= k < |all| ==> all[k].name != validatorName
      {
        if validatorClasses[i].name == validatorName {
          ResolveLastNamed(all, validatorName, |all| - 1 - i);
          return Success(validatorClasses[i]);
        }
      }
      assert forall c :: c in all ==> c.name != validatorName;
      return Failure(NotDefined(validatorName));
    }
  }
}
