/**
 * Display profiles of agents: a cache loaded once from browser storage,
 * written back after every change, and a default profile derived from a
 * hash of the agent id when none is stored.
 */
module AgentPersonalization {
  import opened Wrappers
  import opened StringHash
  import opened OrderedMap

  datatype AgentProfile = AgentProfile(agentId: string, displayName: string, role: string, emoji: string)

  /** `Partial<AgentProfile>` as `setProfile` reads it (its `agentId` is ignored). */
  datatype ProfilePatch = ProfilePatch(displayName: Option<string>, role: Option<string>, emoji: Option<string>)

  datatype RoleChoice = RoleChoice(role: string, emoji: string)

  const Roles: seq<RoleChoice> := [
    RoleChoice("Inspetora de Qualidade", "\U{1F50D}"),
    RoleChoice("Analista", "\U{1F4CA}"),
    RoleChoice("Engenheiro", "\U{1F3D7}\U{FE0F}"),
    RoleChoice("Ministro", "\U{1F3DB}\U{FE0F}")
  ]

  const Letters: string := "ABCDEFGHIJKLMNOPQRSTUVWXYZ"

  /** `pickLetterForAgent(agentId)`. */
  function LetterFor(agentId: string): (c: char)
    ensures 'A' <= c <= 'Z'
  {
    Letters[AbsMod(Hash(agentId), |Letters|)]
  }

  /** `generateDefaultProfile(agentId)`. */
  function DefaultProfile(agentId: string): AgentProfile {
    var chosen := Roles[AbsMod(Hash(agentId), |Roles|)];
    AgentProfile(agentId, "Inspetor " + [LetterFor(agentId)], chosen.role, chosen.emoji)
  }

  /** `getProfile(agentId)` once the cache is loaded: the cached profile, else the default. */
  function ProfileFrom(cache: Entries<AgentProfile>, agentId: string): AgentProfile {
    match Get(cache, agentId)
    case Some(p) => p
    case None => DefaultProfile(agentId)
  }

  /** The profile `setProfile` stores: each given field replaces the current one (`??`). */
  function Patched(agentId: string, current: AgentProfile, patch: ProfilePatch): AgentProfile {
    AgentProfile(agentId, patch.displayName.GetOr(current.displayName), patch.role.GetOr(current.role),
                 patch.emoji.GetOr(current.emoji))
  }

  /** The cache after `set` of each entry in turn. */
  function PutAll(cache: Entries<AgentProfile>, entries: Entries<AgentProfile>): (r: Entries<AgentProfile>)
    ensures DistinctKeys(cache) ==> DistinctKeys(r)
  {
    if entries == [] then cache
    else
      var init := PutAll(cache, entries[..|entries| - 1]);
      var e := entries[|entries| - 1];
      if DistinctKeys(init) then PutKeepsDistinct(init, e.0, e.1); Put(init, e.0, e.1)
      else Put(init, e.0, e.1)
  }

  /** The cache after `upsertMany(profiles)`. */
  function Upserted(cache: Entries<AgentProfile>, profiles: seq<AgentProfile>): (r: Entries<AgentProfile>)
    ensures DistinctKeys(cache) ==> DistinctKeys(r)
  {
    PutAll(cache, seq(|profiles|, i requires 0 <= i < |profiles| => (profiles[i].agentId, profiles[i])))
  }

  // ----------------------------------------------------------------- lemmas

  /**
   * The default profile is an inspector named after a letter of the alphabet,
   * with one of the four roles, both chosen by `|hash(id)|` modulo the list length.
   */
  lemma DefaultProfileFacts(agentId: string)
    ensures var p := DefaultProfile(agentId);
      var k := AbsMod(Hash(agentId), 4);
      p.agentId == agentId && p.role == Roles[k].role && p.emoji == Roles[k].emoji
      && p.displayName == "Inspetor " + [Letters[AbsMod(Hash(agentId), 26)]]
      && |p.displayName| == 10 && 'A' <= p.displayName[9] <= 'Z'
  {
  }

  /** A stored profile wins over the default; an id not stored gets the default. */
  lemma ProfileFromCases(cache: Entries<AgentProfile>, agentId: string)
    ensures HasKey(cache, agentId) ==> ProfileFrom(cache, agentId) == Get(cache, agentId).value
    ensures !HasKey(cache, agentId) ==> ProfileFrom(cache, agentId) == DefaultProfile(agentId)
  {
  }

  /** After `setProfile` the agent reads back the patched profile and every other agent reads as before. */
  lemma SetThenGet(cache: Entries<AgentProfile>, agentId: string, patch: ProfilePatch, other: string)
    requires DistinctKeys(cache)
    ensures var updated := Patched(agentId, ProfileFrom(cache, agentId), patch);
      var after := Put(cache, agentId, updated);
      ProfileFrom(after, agentId) == updated
      && (other != agentId ==> ProfileFrom(after, other) == ProfileFrom(cache, other))
  {
    var updated := Patched(agentId, ProfileFrom(cache, agentId), patch);
    GetAfterPut(cache, agentId, updated, agentId);
    GetAfterPut(cache, agentId, updated, other);
  }

  /** An empty patch stores the current profile under the given id. */
  lemma EmptyPatchKeepsProfile(agentId: string, current: AgentProfile)
    ensures Patched(agentId, current, ProfilePatch(None, None, None)) == current.(agentId := agentId)
  {
  }

  /** After `upsertMany` the last profile given for an id is the one read back. */
  lemma {:induction false} UpsertLastWins(cache: Entries<AgentProfile>, profiles: seq<AgentProfile>)
    requires DistinctKeys(cache) && profiles != []
    ensures var p := profiles[|profiles| - 1];
      ProfileFrom(Upserted(cache, profiles), p.agentId) == p
  {
    var es := seq(|profiles|, i requires 0 <= i < |profiles| => (profiles[i].agentId, profiles[i]));
    var p := profiles[|profiles| - 1];
    var init := PutAll(cache, es[..|es| - 1]);
    assert es[|es| - 1] == (p.agentId, p);
    GetAfterPut(init, p.agentId, p, p.agentId);
  }

  // ------------------------------------------------------------------ class

  class AgentPersonalizationService {
    var cache: Entries<AgentProfile>
    var initialized: bool
    /** What browser storage holds under `agent_profiles_v1`, parsed; None when absent or unreadable. */
    var storage: Option<Entries<AgentProfile>>

    predicate Valid()
      reads this
    {
      DistinctKeys(cache)
    }

    constructor (stored: Option<Entries<AgentProfile>>)
      ensures cache == [] && !initialized && storage == stored && Valid()
    {
      cache := [];
      initialized := false;
      storage := stored;
    }

    /** `ensureLoaded()`: on the first call, every stored entry is set into the cache. */
    method EnsureLoaded()
      requires Valid()
      modifies this
      ensures Valid() && initialized && storage == old(storage)
      ensures old(initialized) ==> cache == old(cache)
      ensures !old(initialized) ==> cache == PutAll(old(cache), old(storage).GetOr([]))
    {
      if initialized {
        return;
      }
      if storage.Some? {
        var parsed := storage.value;
        for i := 0 to |parsed|
          invariant cache == PutAll(old(cache), parsed[..i]) && Valid() && storage == old(storage)
        {
          assert parsed[..i + 1][..i] == parsed[..i];
          PutKeepsDistinct(cache, parsed[i].0, parsed[i].1);
          cache := Put(cache, parsed[i].0, parsed[i].1);
        }
        assert parsed[..|parsed|] == parsed;
      }
      initialized := true;
    }

    /** `persist()`: the cache, keyed by id, becomes the stored value. */
    method Persist()
      modifies this
      ensures storage == Some(cache) && cache == old(cache) && initialized == old(initialized)
    {
      storage := Some(cache);
    }

    method GetProfile(agentId: string) returns (p: AgentProfile)
      requires Valid()
      modifies this
      ensures Valid() && initialized && storage == old(storage)
      ensures old(initialized) ==> cache == old(cache)
      ensures !old(initialized) ==> cache == PutAll(old(cache), old(storage).GetOr([]))
      ensures p == ProfileFrom(cache, agentId)
    {
      EnsureLoaded();
      var existing := Get(cache, agentId);
      if existing.Some? {
        return existing.value;
      }
      p := DefaultProfile(agentId);
    }

    method SetProfile(agentId: string, patch: ProfilePatch)
      requires Valid()
      modifies this
      ensures Valid() && initialized
      ensures var loaded := if old(initialized) then old(cache) else PutAll(old(cache), old(storage).GetOr([]));
        cache == Put(loaded, agentId, Patched(agentId, ProfileFrom(loaded, agentId), patch))
      ensures storage == Some(cache)
    {
      EnsureLoaded();
      var current := GetProfile(agentId);
      var updated := Patched(agentId, current, patch);
      PutKeepsDistinct(cache, agentId, updated);
      cache := Put(cache, agentId, updated);
      Persist();
    }

    method GetAllProfiles() returns (r: seq<AgentProfile>)
      requires Valid()
      modifies this
      ensures Valid() && initialized && storage == old(storage)
      ensures old(initialized) ==> cache == old(cache)
      ensures !old(initialized) ==> cache == PutAll(old(cache), old(storage).GetOr([]))
      ensures r == Values(cache)
    {
      EnsureLoaded();
      r := Values(cache);
    }

    method UpsertMany(profiles: seq<AgentProfile>)
      requires Valid()
      modifies this
      ensures Valid() && initialized
      ensures var loaded := if old(initialized) then old(cache) else PutAll(old(cache), old(storage).GetOr([]));
        cache == Upserted(loaded, profiles)
      ensures storage == Some(cache)
    {
      EnsureLoaded();
      ghost var loaded := cache;
      ghost var es := seq(|profiles|, i requires 0 <= i < |profiles| => (profiles[i].agentId, profiles[i]));
      for i := 0 to |profiles|
        invariant cache == PutAll(loaded, es[..i]) && Valid() && initialized
      {
        assert es[..i + 1][..i] == es[..i];
        PutKeepsDistinct(cache, profiles[i].agentId, profiles[i]);
        cache := Put(cache, profiles[i].agentId, profiles[i]);
      }
      assert es[..|profiles|] == es;
      Persist();
    }
  }
}
