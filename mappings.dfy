/**
 * The `mapping_profiles` table and its endpoints: listing by name,
 * creating and renaming under a unique name, lookup and deletion by id,
 * and choosing the one default profile. Each handler works on the table
 * and commits at its end; a handler that raises before its commit leaves
 * the table as it was.
 */
module Mappings {
  import opened Wrappers
  import opened Schemas
  import opened Models
  import opened Sequences

  // ---------------------------------------------------------------------
  // Ordering by name
  // ---------------------------------------------------------------------

  /** `ORDER BY name`: profiles compared by name, by code point. */
  predicate ByName(a: MappingProfile, b: MappingProfile) {
    LexLe(a.fields.name, b.fields.name)
  }

  /** Comparing by name orders any two profiles and is transitive, so it can sort. */
  lemma ByNameOrders()
    ensures TotalPreorder(ByName)
  {
    forall a: MappingProfile, b: MappingProfile
      ensures ByName(a, b) || ByName(b, a)
    {
      LexLeTotal(a.fields.name, b.fields.name);
    }
    forall a: MappingProfile, b: MappingProfile, c: MappingProfile | ByName(a, b) && ByName(b, c)
      ensures ByName(a, c)
    {
      LexLeTransitive(a.fields.name, b.fields.name, c.fields.name);
    }
  }

  // ---------------------------------------------------------------------
  // Lookups
  // ---------------------------------------------------------------------

  const ProfileNotFound := HttpError(404, "Profile not found")

  /** The 400 for a name another profile already has. */
  function NameInUse(name: string): HttpError {
    HttpError(400, "Profile with name '" + name + "' already exists")
  }

  /** `SELECT … WHERE id = ?`: the position of the profile with this id. */
  function IndexOfId(ps: seq<MappingProfile>, id: nat): (k: Option<nat>)
    ensures k.None? <==> forall j :: 0 <= j < |ps| ==> ps[j].id != id
    ensures k.Some? ==> k.value < |ps| && ps[k.value].id == id
  {
    if ps == [] then None
    else if ps[|ps| - 1].id == id then Some(|ps| - 1)
    else IndexOfId(ps[..|ps| - 1], id)
  }

  /** `SELECT … WHERE name = ?`: whether some profile has this name. */
  function NameTaken(ps: seq<MappingProfile>, name: string): (taken: bool)
    ensures taken <==> exists j :: 0 <= j < |ps| && ps[j].fields.name == name
  {
    if ps == [] then false
    else ps[|ps| - 1].fields.name == name || NameTaken(ps[..|ps| - 1], name)
  }

  /** The ids in use, for the rowid of the next insert. */
  function ProfileIds(ps: seq<MappingProfile>): (ids: seq<nat>)
    ensures |ids| == |ps| && forall j :: 0 <= j < |ps| ==> ids[j] == ps[j].id
  {
    seq(|ps|, j requires 0 <= j < |ps| => ps[j].id)
  }

  /** The primary key: no two profiles share an id. */
  ghost predicate UniqueIds(ps: seq<MappingProfile>) {
    forall i, j :: 0 <= i < j < |ps| ==> ps[i].id != ps[j].id
  }

  /** The unique index on `name`. */
  ghost predicate UniqueNames(ps: seq<MappingProfile>) {
    forall i, j :: 0 <= i < j < |ps| ==> ps[i].fields.name != ps[j].fields.name
  }

  /** The profile `create_mapping_profile` inserts: the request's fields, not the default. */
  function NewProfile(ps: seq<MappingProfile>, fields: MappingProfileCreate): MappingProfile {
    MappingProfile(NextId(ProfileIds(ps)), fields, false)
  }

  /** Every flag cleared, then the profile with `id` marked: what `set_default_profile` commits. */
  function Defaulted(ps: seq<MappingProfile>, id: nat): seq<MappingProfile> {
    seq(|ps|, j requires 0 <= j < |ps| => ps[j].(isDefault := ps[j].id == id))
  }

  /**
   * After a set-default on a table where `id` is present, exactly that
   * profile is the default, and every profile keeps its id and fields.
   */
  lemma DefaultIsUnique(ps: seq<MappingProfile>, id: nat, k: nat)
    requires UniqueIds(ps) && k < |ps| && ps[k].id == id
    ensures var r := Defaulted(ps, id);
      && |r| == |ps|
      && (forall j :: 0 <= j < |r| ==> (r[j].isDefault <==> j == k))
      && (forall j :: 0 <= j < |r| ==> r[j].id == ps[j].id && r[j].fields == ps[j].fields)
  {
    var r := Defaulted(ps, id);
    forall j | 0 <= j < |r|
      ensures r[j].isDefault <==> j == k
    {
      if j < k {
        assert ps[j].id != ps[k].id;
      } else if k < j {
        assert ps[k].id != ps[j].id;
      }
    }
  }

  /** A created profile gets a fresh id and is found under it. */
  lemma CreatedIsFound(ps: seq<MappingProfile>, fields: MappingProfileCreate)
    ensures var p := NewProfile(ps, fields);
      && (forall j :: 0 <= j < |ps| ==> ps[j].id != p.id)
      && IndexOfId(ps + [p], p.id) == Some(|ps|)
  {
    var ids := ProfileIds(ps);
    assert forall j :: 0 <= j < |ps| ==> ps[j].id == ids[j];
  }

  /** A deleted profile is no longer found, and no other profile goes. */
  lemma DeletedIsGone(ps: seq<MappingProfile>, k: nat)
    requires UniqueIds(ps) && k < |ps|
    ensures var r := ps[..k] + ps[k + 1..];
      && IndexOfId(r, ps[k].id).None?
      && |r| == |ps| - 1
      && (forall j :: 0 <= j < |ps| && j != k ==> ps[j] in r)
  {
    var r := ps[..k] + ps[k + 1..];
    forall j | 0 <= j < |r|
      ensures r[j].id != ps[k].id
    {
      if j < k {
        assert r[j] == ps[j];
      } else {
        assert r[j] == ps[j + 1];
      }
    }
    forall j | 0 <= j < |ps| && j != k
      ensures ps[j] in r
    {
      if j < k {
        assert r[j] == ps[j];
      } else {
        assert r[j - 1] == ps[j];
      }
    }
  }

  // ---------------------------------------------------------------------
  // The table
  // ---------------------------------------------------------------------

  /** The `mapping_profiles` table, rows in insertion order. */
  class ProfileTable {
    var profiles: seq<MappingProfile>

    ghost predicate Valid()
      reads this
    {
      UniqueIds(profiles) && UniqueNames(profiles)
    }

    constructor ()
      ensures Valid() && profiles == []
    {
      profiles := [];
    }

    /** `list_mapping_profiles`: every profile, ordered by name. */
    function List(): (r: seq<MappingProfile>)
      reads this
      ensures multiset(r) == multiset(profiles)
      ensures forall i, j :: 0 <= i < j < |r| ==> LexLe(r[i].fields.name, r[j].fields.name)
    {
      ByNameOrders();
      SortBy(profiles, ByName)
    }

    /** `get_mapping_profile`: the profile with this id, or a 404. */
    function Get(id: nat): (r: Result<MappingProfile, HttpError>)
      reads this
      ensures r.Ok? <==> exists j :: 0 <= j < |profiles| && profiles[j].id == id
      ensures r.Ok? ==> r.value in profiles && r.value.id == id
      ensures r.Err? ==> r.error == ProfileNotFound
    {
      match IndexOfId(profiles, id)
      case None => Err(ProfileNotFound)
      case Some(k) => Ok(profiles[k])
    }

    /**
     * `create_mapping_profile`: a name already in use is a 400 and changes
     * nothing; otherwise exactly one profile is appended, not the default.
     */
    method Create(fields: MappingProfileCreate) returns (r: Result<MappingProfile, HttpError>)
      requires Valid()
      modifies this
      ensures Valid()
      ensures NameTaken(old(profiles), fields.name) ==> r == Err(NameInUse(fields.name)) && profiles == old(profiles)
      ensures !NameTaken(old(profiles), fields.name) ==>
        r == Ok(NewProfile(old(profiles), fields)) && profiles == old(profiles) + [NewProfile(old(profiles), fields)]
    {
      if NameTaken(profiles, fields.name) {
        return Err(NameInUse(fields.name));
      }
      var profile := MappingProfile(NextId(ProfileIds(profiles)), fields, false);
      CreatedIsFound(profiles, fields);
      profiles := profiles + [profile];
      r := Ok(profile);
    }

    /**
     * `update_mapping_profile`: an unknown id is a 404; a new name that
     * another profile has is a 400; otherwise all seven request fields
     * replace the profile's, and its id and default flag stay.
     */
    method Update(id: nat, data: MappingProfileCreate) returns (r: Result<MappingProfile, HttpError>)
      requires Valid()
      modifies this
      ensures Valid()
      ensures IndexOfId(old(profiles), id).None? ==> r == Err(ProfileNotFound) && profiles == old(profiles)
      ensures IndexOfId(old(profiles), id).Some? ==>
        var k := IndexOfId(old(profiles), id).value;
        var p := old(profiles)[k];
        if data.name != p.fields.name && NameTaken(old(profiles), data.name) then
          r == Err(NameInUse(data.name)) && profiles == old(profiles)
        else
          r == Ok(p.(fields := data)) && profiles == old(profiles)[k := p.(fields := data)]
    {
      var found := IndexOfId(profiles, id);
      if found.None? {
        return Err(ProfileNotFound);
      }
      var k := found.value;
      var profile := profiles[k];
      if data.name != profile.fields.name {
        if NameTaken(profiles, data.name) {
          return Err(NameInUse(data.name));
        }
      }
      profile := profile.(fields := data);
      profiles := profiles[k := profile];
      r := Ok(profile);
    }

    /** `delete_mapping_profile`: an unknown id is a 404; otherwise exactly that profile goes. */
    method Delete(id: nat) returns (r: Result<string, HttpError>)
      requires Valid()
      modifies this
      ensures Valid()
      ensures IndexOfId(old(profiles), id).None? ==> r == Err(ProfileNotFound) && profiles == old(profiles)
      ensures IndexOfId(old(profiles), id).Some? ==>
        var k := IndexOfId(old(profiles), id).value;
        r == Ok("Profile deleted") && profiles == old(profiles)[..k] + old(profiles)[k + 1..]
    {
      var found := IndexOfId(profiles, id);
      if found.None? {
        return Err(ProfileNotFound);
      }
      var k := found.value;
      var rest := profiles[..k] + profiles[k + 1..];
      assert forall i :: 0 <= i < k ==> rest[i] == profiles[i];
      assert forall i :: k <= i < |rest| ==> rest[i] == profiles[i + 1];
      profiles := rest;
      r := Ok("Profile deleted");
    }

    /**
     * `set_default_profile`: clear every default flag, then look the
     * profile up; an unknown id is a 404 raised before the commit, so no
     * flag changes. Otherwise the profile becomes the default and the
     * only one.
     */
    method SetDefault(id: nat) returns (r: Result<string, HttpError>)
      requires Valid()
      modifies this
      ensures Valid()
      ensures IndexOfId(old(profiles), id).None? ==> r == Err(ProfileNotFound) && profiles == old(profiles)
      ensures IndexOfId(old(profiles), id).Some? ==>
        var name := old(profiles)[IndexOfId(old(profiles), id).value].fields.name;
        r == Ok("'" + name + "' is now the default profile") && profiles == Defaulted(old(profiles), id)
    {
      var working := profiles;
      for i := 0 to |working|
        invariant |working| == |profiles|
        invariant forall j :: 0 <= j < i ==> working[j] == profiles[j].(isDefault := false)
        invariant forall j :: i <= j < |working| ==> working[j] == profiles[j]
      {
        if working[i].isDefault {
          working := working[i := working[i].(isDefault := false)];
        }
      }
      var found := IndexOfId(working, id);
      if found.None? {
        return Err(ProfileNotFound);
      }
      var k := found.value;
      working := working[k := working[k].(isDefault := true)];
      DefaultIsUnique(profiles, id, k);
      assert forall j :: 0 <= j < |working| ==> working[j] == Defaulted(profiles, id)[j];
      profiles := working;
      r := Ok("'" + profiles[k].fields.name + "' is now the default profile");
    }
  }
}
