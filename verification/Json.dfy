/** JSON values, the merge patch of RFC 7386 section 2, and the patch a client computes between two documents. */
module Json {
  import opened Wrappers

  /** Names of fixed members come from distinct struct tags; entries of string maps are free text. */
  datatype Member =
    | AsMetadata | AsSpec | AsStatus
    | AsName | AsNamespace | AsUid | AsGeneration | AsDeletion | AsFinalizers
    | AsConditions | AsObservedGeneration | AsType | AsReason | AsMessage | AsTransition
    | AsHubImage | AsFrontendImage | AsHubReplicas | AsWorkerImage
    | AsIngressHost | AsIngressClassName | AsIngressName | AsServiceAccountHub | AsServiceAccountWorker
    | AsHubConfigMapData | AsClusterRoleRules | AsClusterRoleName | AsClusterRoleBindingName
    | AsHubDeploymentName | AsHubLabels | AsHubContainerPorts | AsWorkerDaemonSetName | AsWorkerLabels
    | AsHubServiceName | AsHubConfigMapName | AsSecret
    | AsLicense | AsScriptingEnv | AsOidcClientId | AsOidcClientSecret
    | AsVerbs | AsApiGroups | AsResources | AsResourceNames | AsNonResourceUrls
    | AsHostPort | AsContainerPort | AsProtocol | AsHostIP
    | Entry(text: string)

  datatype Json =
    | Null
    | Bool(flag: bool)
    | Num(number: int)
    | Text(text: string)
    | Arr(items: seq<Json>)
    | Obj(members: map<Member, Json>)

  /** Section 2 of RFC 7386: an object patch edits member by member, anything else replaces. */
  function MergePatch(target: Json, patch: Json): (r: Json)
    ensures patch.Obj? ==> r.Obj?
    decreases patch
  {
    if !patch.Obj? then patch
    else
      var t := if target.Obj? then target.members else map[];
      Obj(map k | k in t.Keys + patch.members.Keys && !(k in patch.members && patch.members[k].Null?) ::
            if k in patch.members then MergePatch(if k in t then t[k] else Null, patch.members[k]) else t[k])
  }

  /** What the computed patch says of one member: nothing, its removal, a nested patch, or the new value. */
  function DiffAt(a: Json, b: Json, k: Member): Option<Json>
    requires a.Obj? && b.Obj?
    decreases b, 0
  {
    if k !in b.members then if k in a.members then Some(Null) else None
    else if k !in a.members then Some(b.members[k])
    else if a.members[k].Obj? && b.members[k].Obj? then
      var nested := Diff(a.members[k], b.members[k]);
      if nested.members == map[] then None else Some(nested)
    else if a.members[k] == b.members[k] then None
    else Some(b.members[k])
  }

  /** The merge patch between two documents. */
  function Diff(a: Json, b: Json): (patch: Json)
    requires a.Obj? && b.Obj?
    ensures patch.Obj?
    decreases b, 1
  {
    Obj(map k | k in a.members.Keys + b.members.Keys && DiffAt(a, b, k).Some? :: DiffAt(a, b, k).value)
  }

  /** A merge patch cannot store a null, so a document that holds one cannot be reached. */
  predicate NullFree(j: Json) {
    match j
    case Null => false
    case Obj(m) => forall k <- m :: NullFree(m[k])
    case _ => true
  }

  /** The patch mentions a member exactly when the two documents differ there. */
  lemma {:induction false} DiffTouches(a: Json, b: Json, k: Member)
    requires a.Obj? && b.Obj?
    ensures k in Diff(a, b).members <==> Lookup(a.members, k) != Lookup(b.members, k)
    decreases b, 0
  {
    if k in a.members && k in b.members && a.members[k].Obj? && b.members[k].Obj? {
      DiffEmptyIffSame(a.members[k], b.members[k]);
    }
  }

  lemma {:induction false} DiffEmptyIffSame(a: Json, b: Json)
    requires a.Obj? && b.Obj?
    ensures Diff(a, b).members == map[] <==> a == b
    decreases b, 1
  {
    forall k: Member
      ensures k in Diff(a, b).members <==> Lookup(a.members, k) != Lookup(b.members, k)
    {
      DiffTouches(a, b, k);
    }
    if Diff(a, b).members == map[] {
      forall k: Member
        ensures k in a.members <==> k in b.members
        ensures k in a.members ==> a.members[k] == b.members[k]
      {
        assert Lookup(a.members, k) == Lookup(b.members, k);
      }
      assert a.members == b.members;
    }
  }

  /** Patching in a value where there was no object just stores it. */
  lemma {:induction false} PatchFresh(target: Json, value: Json)
    requires NullFree(value) && (target.Obj? ==> !value.Obj?)
    ensures MergePatch(target, value) == value
    decreases value
  {
    if value.Obj? {
      forall k <- value.members
        ensures MergePatch(Null, value.members[k]) == value.members[k]
      {
        PatchFresh(Null, value.members[k]);
      }
      assert MergePatch(target, value).members == value.members;
    }
  }

  /** Computing a patch and applying it reaches the intended document, provided that holds no null. */
  lemma {:induction false} DiffThenPatch(a: Json, b: Json)
    requires a.Obj? && b.Obj? && NullFree(b)
    ensures MergePatch(a, Diff(a, b)) == b
    decreases b
  {
    var r := MergePatch(a, Diff(a, b));
    forall k: Member
      ensures k in r.members <==> k in b.members
      ensures k in b.members ==> r.members[k] == b.members[k]
    {
      PatchedMember(a, b, k);
    }
    assert r.members == b.members;
  }

  /** What a patch does to one member: nothing, removal, or a patch of what stands there. */
  lemma PatchAt(target: Json, patch: Json, k: Member)
    ensures !patch.Obj? ==> MergePatch(target, patch) == patch
    ensures patch.Obj? ==>
              var found := if target.Obj? then Lookup(target.members, k) else None;
              Lookup(MergePatch(target, patch).members, k) ==
              if k !in patch.members then found
              else if patch.members[k].Null? then None
              else Some(MergePatch(if found.Some? then found.value else Null, patch.members[k]))
  {
  }

  lemma {:induction false} PatchedMember(a: Json, b: Json, k: Member)
    requires a.Obj? && b.Obj? && NullFree(b)
    ensures Lookup(MergePatch(a, Diff(a, b)).members, k) == Lookup(b.members, k)
    decreases b, 0
  {
    hide MergePatch;
    PatchAt(a, Diff(a, b), k);
    if k in b.members {
      if k in a.members && a.members[k].Obj? && b.members[k].Obj? {
        DiffThenPatch(a.members[k], b.members[k]);
        DiffEmptyIffSame(a.members[k], b.members[k]);
      } else {
        PatchFresh(if k in a.members then a.members[k] else Null, b.members[k]);
      }
    }
  }

  /** A third document keeps a member on which the two agree, and takes the new value of one that is no object. */
  lemma PatchedElsewhere(target: Json, a: Json, b: Json, k: Member)
    requires target.Obj? && a.Obj? && b.Obj?
    requires k in b.members ==> !b.members[k].Obj? && !b.members[k].Null?
    ensures Lookup(MergePatch(target, Diff(a, b)).members, k)
            == if Lookup(a.members, k) == Lookup(b.members, k) then Lookup(target.members, k) else Lookup(b.members, k)
  {
  }
}
