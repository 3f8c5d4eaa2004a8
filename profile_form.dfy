/** The settings form that edits the user's profile: it writes the profiles row, then
    copies the same values into the account's metadata so the session sees them. */
module ProfileForm {

  import opened Common
  import opened Remote
  import Session

  datatype Values = Values(full_name: string, commerce_name: string, phone: Option<string>)

  const DEFAULTS := Values("", "", Some(""))

  /** The effect that seeds the form from the context's profile; absent fields become "". */
  function Seed(p: Session.Profile): (v: Values)
    ensures v.phone.Some?
    ensures p.full_name.Some? ==> v.full_name == p.full_name.value
    ensures p.full_name.None? ==> v.full_name == ""
  {
    Values(OrEmpty(p.full_name), OrEmpty(p.commerce_name), Some(OrEmpty(p.phone)))
  }

  datatype Field = FullName | CommerceName

  /** `profileSchema`: both names non-empty; the phone is free. */
  function Errors(v: Values): set<Field> {
    (if |v.full_name| < 1 then {FullName} else {})
    + (if |v.commerce_name| < 1 then {CommerceName} else {})
  }

  /** A seeded form can be submitted unchanged exactly when the profile had both names
      given and non-empty. */
  lemma SeedAccepted(p: Session.Profile)
    ensures Errors(Seed(p)) == {} <==>
      p.full_name.Some? && p.full_name.value != "" && p.commerce_name.Some? && p.commerce_name.value != ""
  {
    if |Seed(p).full_name| < 1 {
      assert FullName in Errors(Seed(p));
    } else if |Seed(p).commerce_name| < 1 {
      assert CommerceName in Errors(Seed(p));
    }
  }

  datatype Result = Invalid | NoUser | ProfileRefused | MetadataRefused | Updated

  /** `onSubmit` behind the schema check. */
  function SubmitEffect(db: Db, v: Values, user: Option<Id>, profileFails: bool, metadataFails: bool): Step<Result> {
    if Errors(v) != {} then Step(db, Invalid)
    else if user.None? then Step(db, NoUser)
    else
      var p := db.UpdateProfileFields(user.value, v.full_name, v.commerce_name, v.phone, profileFails);
      if !p.out then Step(p.db, ProfileRefused)
      else
        var m := p.db.UpdateMetadata(v.full_name, v.commerce_name, v.phone, metadataFails);
        Step(m.db, if m.out then Updated else MetadataRefused)
  }

  /** Without a user nothing is sent; a refused profile update stops before the metadata
      update. */
  lemma EarlyExits(db: Db, v: Values, user: Option<Id>, profileFails: bool, metadataFails: bool)
    ensures SubmitEffect(db, v, user, profileFails, metadataFails).out in {Invalid, NoUser} ==>
      SubmitEffect(db, v, user, profileFails, metadataFails).db == db
    ensures SubmitEffect(db, v, user, profileFails, metadataFails).out == ProfileRefused ==>
      SubmitEffect(db, v, user, profileFails, metadataFails).db == db.(log := db.log + [Update(Profiles, user.value)])
    ensures SubmitEffect(db, v, user, profileFails, metadataFails).out == ProfileRefused <==>
      Errors(v) == {} && user.Some? && profileFails
  {
  }

  /** Once the profile is written, the metadata update carries the same three values:
      when both succeed, the user's profile rows and the signed-in account agree. */
  lemma SameValuesBothPlaces(db: Db, v: Values, user: Option<Id>, profileFails: bool, metadataFails: bool)
    requires SubmitEffect(db, v, user, profileFails, metadataFails).out == Updated
    ensures user.Some? && db.session.Some?
    ensures var d := SubmitEffect(db, v, user, profileFails, metadataFails).db;
      && (forall i :: 0 <= i < |d.profiles| && d.profiles[i].id == user.value ==>
            d.profiles[i].full_name == Some(v.full_name) && d.profiles[i].commerce_name == Some(v.commerce_name)
            && d.profiles[i].phone == v.phone)
      && (forall i :: 0 <= i < |d.accounts| && d.accounts[i].id == db.session.value ==>
            d.accounts[i].full_name == Some(v.full_name) && d.accounts[i].commerce_name == Some(v.commerce_name)
            && d.accounts[i].phone == v.phone)
  {
  }

  /** A refused metadata update does not undo the profile write. */
  lemma MetadataFailureKeepsProfile(db: Db, v: Values, user: Option<Id>, profileFails: bool, metadataFails: bool)
    requires SubmitEffect(db, v, user, profileFails, metadataFails).out == MetadataRefused
    ensures SubmitEffect(db, v, user, profileFails, metadataFails).db.profiles
      == db.UpdateProfileFields(user.value, v.full_name, v.commerce_name, v.phone, false).db.profiles
    ensures SubmitEffect(db, v, user, profileFails, metadataFails).db.accounts == db.accounts
  {
  }

  class Form {
    var values: Values
    var loading: bool

    constructor ()
      ensures values == DEFAULTS && !loading
    {
      values, loading := DEFAULTS, false;
    }

    /** The seeding effect: it runs only when the context has a profile. */
    method Reseed(profile: Option<Session.Profile>)
      modifies this
      ensures profile.Some? ==> values == Seed(profile.value)
      ensures profile.None? ==> values == old(values)
      ensures loading == old(loading)
    {
      if profile.Some? {
        values := Seed(profile.value);
      }
    }

    /** `loading` ends false on every exit after the user check; the values are kept. */
    method Submit(store: Store, user: Option<Id>, profileFails: bool, metadataFails: bool) returns (r: Result)
      modifies this, store
      ensures Step(store.db, r) == SubmitEffect(old(store.db), old(values), user, profileFails, metadataFails)
      ensures r in {Invalid, NoUser} ==> loading == old(loading)
      ensures r !in {Invalid, NoUser} ==> !loading
      ensures values == old(values)
    {
      if Errors(values) != {} {
        return Invalid;
      }
      if user.None? {
        return NoUser;
      }
      loading := true;
      var ok := store.UpdateProfileFields(user.value, values.full_name, values.commerce_name, values.phone, profileFails);
      if !ok {
        loading := false;
        return ProfileRefused;
      }
      var synced := store.UpdateMetadata(values.full_name, values.commerce_name, values.phone, metadataFails);
      loading := false;
      r := if synced then Updated else MetadataRefused;
    }
  }
}
