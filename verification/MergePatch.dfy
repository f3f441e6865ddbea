/**
 The configuration-patch oracle: JSON Merge Patch (section 2 of RFC 7396). Besides the merge
 itself, the documents that some patch can produce from a given one are characterized exactly,
 and for each of them a patch is constructed.
 */
module MergePatch {
  datatype Json = Null | Scalar(text: string) | Array(items: seq<Json>) | Object(members: map<string, Json>)

  /** The members of an object; anything else counts as the empty object. */
  function Members(value: Json): map<string, Json> {
    if value.Object? then value.members else map[]
  }

  /** A member's value; a missing member reads as null. */
  function Get(members: map<string, Json>, key: string): Json {
    if key in members then members[key] else Null
  }

  /** Key by key: a null in the patch deletes, any other member is merged, the rest stays. */
  function Merge(base: Json, patch: Json): Json
    decreases patch
  {
    if !patch.Object? then patch
    else
      var out := Members(base);
      Object(map k | k in out.Keys + patch.members.Keys && !(k in patch.members && patch.members[k] == Null) ::
               if k in patch.members then Merge(Get(out, k), patch.members[k]) else out[k])
  }

  /** The oracle's own loop: copy the base, then apply the patch member by member in any order. */
  method MergeInto(base: Json, patch: Json) returns (r: Json)
    ensures r == Merge(base, patch)
    decreases patch
  {
    if !patch.Object? {
      return patch;
    }
    var before := Members(base);
    var out := before;
    var todo := patch.members.Keys;
    while todo != {}
      invariant todo <= patch.members.Keys
      invariant forall k | k in todo || k !in patch.members :: (k in out <==> k in before) && Get(out, k) == Get(before, k)
      invariant forall k | k in patch.members && k !in todo ::
                  (k in out <==> patch.members[k] != Null) &&
                  (patch.members[k] != Null ==> Get(out, k) == Merge(Get(before, k), patch.members[k]))
      decreases todo
    {
      var k :| k in todo;
      todo := todo - {k};
      if patch.members[k] == Null {
        out := out - {k};
      } else {
        var merged := MergeInto(Get(out, k), patch.members[k]);
        out := out[k := merged];
      }
    }
    assert out == Merge(base, patch).members;
    return Object(out);
  }

  /**
   The members of the result: those of the patch that are not null, merged into the old ones, or into
   nothing where there was none; and the old ones that the patch does not mention.
   */
  lemma MergedMembers(base: Json, patch: Json, k: string)
    ensures !patch.Object? ==> Merge(base, patch) == patch
    ensures patch.Object? ==>
              var merged := Merge(base, patch);
              var have := if base.Object? then base.members else map[];
              && merged.Object?
              && (k in patch.members && patch.members[k] == Null ==> k !in merged.members)
              && (k in patch.members && patch.members[k] != Null ==>
                    k in merged.members && merged.members[k] == Merge(if k in have then have[k] else Null, patch.members[k]))
              && (k !in patch.members ==> (k in merged.members <==> k in have) && (k in have ==> merged.members[k] == have[k]))
  {
  }

  /** Applying a patch twice is applying it once. */
  lemma {:induction false} MergeIsIdempotent(base: Json, patch: Json)
    ensures Merge(Merge(base, patch), patch) == Merge(base, patch)
    decreases patch
  {
    if patch.Object? {
      var once := Merge(base, patch);
      var twice := Merge(once, patch);
      forall k | k in patch.members && patch.members[k] != Null
        ensures k in once.members && k in twice.members && twice.members[k] == once.members[k]
      {
        MergeIsIdempotent(Get(Members(base), k), patch.members[k]);
      }
      assert twice.members.Keys == once.members.Keys;
      assert twice.members == once.members;
    }
  }

  // ---- What a patch can produce ----

  /**
   Some patch turns `base` into `goal`: a goal that is not an object is simply put in place; an
   object must find each of its members unchanged in the base, or be able to reach it with a
   patch other than null. So a null inside an object can only be one that was already there.
   */
  predicate CanReach(base: Json, goal: Json)
    decreases goal
  {
    goal.Object? ==>
      forall k | k in goal.members ::
        || (k in Members(base) && Members(base)[k] == goal.members[k])
        || (goal.members[k] != Null && CanReach(Get(Members(base), k), goal.members[k]))
  }

  /** The patch: null for what must go, nothing for what is there already, a patch for the rest. */
  function Diff(base: Json, goal: Json): Json
    decreases goal
  {
    if !goal.Object? then goal
    else
      var have := Members(base);
      Object(map k | k in have.Keys + goal.members.Keys && !(k in have && k in goal.members && have[k] == goal.members[k]) ::
               if k in goal.members then Diff(Get(have, k), goal.members[k]) else Null)
  }

  lemma {:induction false} DiffReaches(base: Json, goal: Json)
    requires CanReach(base, goal)
    ensures Merge(base, Diff(base, goal)) == goal
    decreases goal
  {
    if goal.Object? {
      var have, patch := Members(base), Diff(base, goal);
      var result := Merge(base, patch);
      forall k | k in goal.members
        ensures k in result.members && result.members[k] == goal.members[k]
      {
        if !(k in have && have[k] == goal.members[k]) {
          DiffReaches(Get(have, k), goal.members[k]);
        }
      }
      assert result.members.Keys == goal.members.Keys;
      assert result.members == goal.members;
    }
  }

  lemma {:induction false} MergeIsReachable(base: Json, patch: Json)
    ensures CanReach(base, Merge(base, patch))
    decreases patch
  {
    if patch.Object? {
      var result := Merge(base, patch);
      forall k | k in result.members && k in patch.members
        ensures result.members[k] != Null && CanReach(Get(Members(base), k), result.members[k])
      {
        MergeIsReachable(Get(Members(base), k), patch.members[k]);
        NonNullStaysNonNull(Get(Members(base), k), patch.members[k]);
      }
    }
  }

  lemma NonNullStaysNonNull(base: Json, patch: Json)
    ensures Merge(base, patch) == Null <==> patch == Null
  {
  }

  /** A patch from base to goal exists exactly when CanReach says so. */
  lemma PatchExistsIff(base: Json, goal: Json)
    ensures (exists patch :: Merge(base, patch) == goal) <==> CanReach(base, goal)
  {
    if CanReach(base, goal) {
      DiffReaches(base, goal);
    }
    forall patch
      ensures CanReach(base, Merge(base, patch))
    {
      MergeIsReachable(base, patch);
    }
  }

  /** No object inside the document, itself included, has a null member. */
  predicate NoNullMembers(value: Json) {
    value.Object? ==> forall k | k in value.members :: value.members[k] != Null && NoNullMembers(value.members[k])
  }

  /** A document without null members can be reached from any document. */
  lemma {:induction false} NullFreeIsReachable(base: Json, goal: Json)
    requires NoNullMembers(goal)
    ensures CanReach(base, goal) && Merge(base, Diff(base, goal)) == goal
    decreases goal
  {
    if goal.Object? {
      forall k | k in goal.members
        ensures CanReach(Get(Members(base), k), goal.members[k])
      {
        NullFreeIsReachable(Get(Members(base), k), goal.members[k]);
      }
    }
    DiffReaches(base, goal);
  }
}
