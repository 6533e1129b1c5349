/**
 * The registry of proactive skills (pkg/skills/registry.go and
 * pkg/skills/types.go): a map from a skill's definition name to the skill,
 * updated in place. A skill is reduced to its definition without the parameter
 * schema; the read-write lock is not modelled.
 */
module SkillRegistry {
  import opened Wrappers
  import opened Maps

  /** `SkillDefinition` without its JSON parameter schema. */
  datatype SkillDefinition = SkillDefinition(name: string, description: string)

  /** A skill, as far as the registry sees it. */
  datatype Skill = Skill(definition: SkillDefinition)

  /** The map left by registering `ss` in order into an empty registry. */
  function Registered(ss: seq<Skill>): map<string, Skill>
    decreases |ss|
  {
    if |ss| == 0 then map[]
    else var last := ss[|ss| - 1]; Registered(ss[..|ss| - 1])[last.definition.name := last]
  }

  /** The names occurring among `ss`. */
  function Names(ss: seq<Skill>): set<string> {
    set i | 0 <= i < |ss| :: ss[i].definition.name
  }

  /** Registering a sequence files exactly its names, each under the last skill of that name. */
  lemma {:induction false} RegisteredMeaning(ss: seq<Skill>, n: string)
    ensures n in Registered(ss) <==> n in Names(ss)
    ensures n in Registered(ss) ==>
              exists i :: 0 <= i < |ss| && Registered(ss)[n] == ss[i] && ss[i].definition.name == n
                          && forall j :: i < j < |ss| ==> ss[j].definition.name != n
    decreases |ss|
  {
    if |ss| > 0 {
      var init := ss[..|ss| - 1];
      var last := ss[|ss| - 1];
      RegisteredMeaning(init, n);
      assert Names(ss) == Names(init) + {last.definition.name} by {
        forall x ensures x in Names(ss) <==> x in Names(init) + {last.definition.name} {
          if x in Names(ss) {
            var i :| 0 <= i < |ss| && ss[i].definition.name == x;
            if i < |ss| - 1 {
              assert init[i] == ss[i];
            }
          }
          if x in Names(init) {
            var i :| 0 <= i < |init| && init[i].definition.name == x;
            assert ss[i] == init[i];
          }
        }
      }
      if n in Registered(ss) && n != last.definition.name {
        var i :| 0 <= i < |init| && Registered(init)[n] == init[i] && init[i].definition.name == n
                 && forall j :: i < j < |init| ==> init[j].definition.name != n;
        assert ss[i] == init[i];
        assert forall j :: i < j < |ss| ==> ss[j].definition.name != n by {
          forall j | i < j < |ss| ensures ss[j].definition.name != n {
            if j < |ss| - 1 {
              assert ss[j] == init[j];
            }
          }
        }
      }
    }
  }

  /** Registering a sequence yields as many skills as the sequence has distinct names. */
  lemma RegisteredSize(ss: seq<Skill>)
    ensures |Registered(ss)| == |Names(ss)|
  {
    forall n ensures n in Registered(ss) <==> n in Names(ss) {
      RegisteredMeaning(ss, n);
    }
    assert Registered(ss).Keys == Names(ss);
  }

  class Registry {
    var skills: map<string, Skill>
    /** The skills registered so far, in order. */
    ghost var history: seq<Skill>

    /** The map is what the registrations so far leave. */
    ghost predicate Valid()
      reads this
    {
      skills == Registered(history)
    }

    /** `NewRegistry`: an empty registry. */
    constructor ()
      ensures Valid() && history == [] && skills == map[]
    {
      skills := map[];
      history := [];
    }

    /** `Register`: files `skill` under its definition name, overwriting any skill of that name. */
    method Register(skill: Skill)
      requires Valid()
      modifies this
      ensures Valid() && history == old(history) + [skill]
      ensures skills == old(skills)[skill.definition.name := skill]
      ensures Get(skill.definition.name) == Some(skill)
      ensures forall n :: n != skill.definition.name ==> Get(n) == old(Get(n))
    {
      skills := skills[skill.definition.name := skill];
      history := history + [skill];
      assert history[..|history| - 1] == old(history);
    }

    /** `Get`: the skill of that name, `None` standing for Go's nil. */
    function Get(name: string): (r: Option<Skill>)
      reads this
      ensures r.None? <==> name !in skills
      ensures r.Some? ==> r.value in skills.Values
    {
      if name in skills then Some(skills[name]) else None
    }

    /** `All`: each registered name's current skill, once, in map order. */
    method All() returns (result: seq<Skill>)
      requires Valid()
      ensures |result| == |Names(history)|
      ensures forall i :: 0 <= i < |result| ==> Get(result[i].definition.name) == Some(result[i])
      ensures forall i, j :: 0 <= i < j < |result| ==> result[i].definition.name != result[j].definition.name
      ensures forall n :: n in Names(history) <==> exists i :: 0 <= i < |result| && result[i].definition.name == n
    {
      result := Values(skills);
      RegisteredSize(history);
      ghost var ks :| Enumerates(ks, skills) && |ks| == |result| && forall i :: 0 <= i < |ks| ==> result[i] == skills[ks[i]];
      forall i | 0 <= i < |result| ensures ks[i] in skills && result[i] == skills[ks[i]] && result[i].definition.name == ks[i] {
        assert ks[i] in ks;
        RegisteredMeaning(history, ks[i]);
      }
      forall n ensures n in Names(history) <==> exists i :: 0 <= i < |result| && result[i].definition.name == n {
        RegisteredMeaning(history, n);
        if n in skills {
          assert n in ks;
          var i :| 0 <= i < |ks| && ks[i] == n;
          assert result[i].definition.name == n;
        }
      }
    }
  }
}
