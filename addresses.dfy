/**
 * Shipping-address list maintenance of the user-profile service. Each operation
 * reads the profile, transforms its address list (clearing `isDefault` on the
 * fetched entries in place when needed) and writes the whole list back. The
 * profile reads, the signed-in user and the generated id are parameters; the
 * result is the list handed to the profile write, or the error thrown.
 */
module Addresses {
  import opened Wrappers

  /** One saved shipping address. */
  datatype ShippingAddress = ShippingAddress(
    id: string,
    name: string,
    street: string,
    city: string,
    state: string,
    zipCode: string,
    country: string,
    isDefault: bool)

  /** A new address as the form submits it: every field but the id. */
  datatype AddressInput = AddressInput(
    name: string,
    street: string,
    city: string,
    state: string,
    zipCode: string,
    country: string,
    isDefault: bool)

  /** A partial address: the fields the caller wants to overwrite. */
  datatype AddressPatch = AddressPatch(
    id: Option<string>,
    name: Option<string>,
    street: Option<string>,
    city: Option<string>,
    state: Option<string>,
    zipCode: Option<string>,
    country: Option<string>,
    isDefault: Option<bool>)

  /** The part of a stored user profile that the address operations read. */
  datatype UserProfile = UserProfile(
    uid: string,
    email: string,
    shippingAddresses: Option<seq<ShippingAddress>>)

  /** The signed-in user of the identity provider; its email may be null. */
  datatype AuthUser = AuthUser(email: Option<string>)

  const UserNotAuthenticated := "User not authenticated"
  const FailedToCreateProfile := "Failed to create user profile"
  const ProfileNotFound := "User profile not found"
  const AddressNotFound := "Address not found"

  /** `profile.shippingAddresses || []`. */
  function Stored(profile: UserProfile): (r: seq<ShippingAddress>)
    ensures profile.shippingAddresses.Some? ==> r == profile.shippingAddresses.value
    ensures profile.shippingAddresses.None? ==> r == []
  {
    match profile.shippingAddresses
    case Some(list) => list
    case None => []
  }

  /** `user.email || ""`: the email a newly created profile is given. */
  function EmailOrEmpty(user: AuthUser): string {
    match user.email
    case Some(e) => e
    case None => ""
  }

  /** No two addresses share an id. */
  predicate UniqueIds(s: seq<ShippingAddress>) {
    forall i, j | 0 <= i < j < |s| :: s[i].id != s[j].id
  }

  /** At most one address is the default. */
  predicate AtMostOneDefault(s: seq<ShippingAddress>) {
    forall i, j | 0 <= i < j < |s| :: !(s[i].isDefault && s[j].isDefault)
  }

  /** The list after `forEach(addr => addr.isDefault = false)`. */
  function WithoutDefaults(s: seq<ShippingAddress>): (r: seq<ShippingAddress>)
    ensures |r| == |s|
    ensures forall i | 0 <= i < |r| :: r[i] == s[i].(isDefault := false)
  {
    if s == [] then [] else [s[0].(isDefault := false)] + WithoutDefaults(s[1..])
  }

  /** `{ ...address, id }`. */
  function WithId(a: AddressInput, id: string): ShippingAddress {
    ShippingAddress(id, a.name, a.street, a.city, a.state, a.zipCode, a.country, a.isDefault)
  }

  function Or<T>(o: Option<T>, d: T): T {
    match o
    case Some(v) => v
    case None => d
  }

  /** `{ ...a, ...patch }`: each field present in the patch wins. */
  function ApplyPatch(a: ShippingAddress, p: AddressPatch): (r: ShippingAddress)
    ensures (p.id.Some? ==> r.id == p.id.value) && (p.id.None? ==> r.id == a.id)
    ensures (p.name.Some? ==> r.name == p.name.value) && (p.name.None? ==> r.name == a.name)
    ensures (p.street.Some? ==> r.street == p.street.value) && (p.street.None? ==> r.street == a.street)
    ensures (p.city.Some? ==> r.city == p.city.value) && (p.city.None? ==> r.city == a.city)
    ensures (p.state.Some? ==> r.state == p.state.value) && (p.state.None? ==> r.state == a.state)
    ensures (p.zipCode.Some? ==> r.zipCode == p.zipCode.value) && (p.zipCode.None? ==> r.zipCode == a.zipCode)
    ensures (p.country.Some? ==> r.country == p.country.value) && (p.country.None? ==> r.country == a.country)
    ensures (p.isDefault.Some? ==> r.isDefault == p.isDefault.value) && (p.isDefault.None? ==> r.isDefault == a.isDefault)
  {
    ShippingAddress(
      Or(p.id, a.id), Or(p.name, a.name), Or(p.street, a.street), Or(p.city, a.city),
      Or(p.state, a.state), Or(p.zipCode, a.zipCode), Or(p.country, a.country),
      Or(p.isDefault, a.isDefault))
  }

  /**
   * The list addShippingAddress writes: the stored addresses (all made non-default
   * when the new address is the default) followed by the new address with its id.
   */
  function AddedList(existing: seq<ShippingAddress>, address: AddressInput, newId: string): (r: seq<ShippingAddress>)
    ensures |r| == |existing| + 1
    ensures r[|existing|] == WithId(address, newId) && r[|existing|].id == newId
    ensures !address.isDefault ==> r[..|existing|] == existing
    ensures address.isDefault ==> forall i | 0 <= i < |r| :: r[i].isDefault <==> i == |existing|
    ensures forall i | 0 <= i < |existing| ::
      r[i] == existing[i] || r[i] == existing[i].(isDefault := false)
  {
    (if address.isDefault then WithoutDefaults(existing) else existing) + [WithId(address, newId)]
  }

  /** `findIndex` by id: the first index carrying `id`, or -1. */
  function IndexOfId(s: seq<ShippingAddress>, id: string): (k: int)
    ensures -1 <= k < |s|
    ensures k >= 0 ==> s[k].id == id && forall j | 0 <= j < k :: s[j].id != id
    ensures k == -1 <==> forall j | 0 <= j < |s| :: s[j].id != id
  {
    if s == [] then -1
    else if s[0].id == id then 0
    else var k := IndexOfId(s[1..], id); if k == -1 then -1 else k + 1
  }

  /**
   * The list updateShippingAddress writes once it has found the address at index
   * k: every address made non-default first if the patch sets `isDefault`, then
   * the patch merged into the address at k.
   */
  function PatchedList(existing: seq<ShippingAddress>, k: nat, patch: AddressPatch): (r: seq<ShippingAddress>)
    requires k < |existing|
    ensures |r| == |existing|
    ensures r[k] == ApplyPatch(if patch.isDefault == Some(true) then existing[k].(isDefault := false) else existing[k], patch)
    ensures forall i | 0 <= i < |r| && i != k ::
      r[i] == if patch.isDefault == Some(true) then existing[i].(isDefault := false) else existing[i]
  {
    var base := if patch.isDefault == Some(true) then WithoutDefaults(existing) else existing;
    base[k := ApplyPatch(base[k], patch)]
  }

  // ---------------------------------------------------------------------------
  // The two service operations, as they run on the fetched list
  // ---------------------------------------------------------------------------

  /** `addresses.forEach(addr => addr.isDefault = false)` on the fetched array. */
  method ClearDefaults(a: array<ShippingAddress>)
    modifies a
    ensures a[..] == WithoutDefaults(old(a[..]))
  {
    for i := 0 to a.Length
      invariant forall j | 0 <= j < i :: a[j] == old(a[j]).(isDefault := false)
      invariant forall j | i <= j < a.Length :: a[j] == old(a[j])
    {
      a[i] := a[i].(isDefault := false);
    }
  }

  /**
   * addShippingAddress. `profile` is the first profile read; when it is missing
   * and a user is signed in, a profile is created for that user's email
   * (`createdFor`) and `reread` is what the second read returns.
   */
  method AddShippingAddress(
    profile: Option<UserProfile>, currentUser: Option<AuthUser>, reread: Option<UserProfile>,
    address: AddressInput, newId: string)
    returns (createdFor: Option<string>, written: Result<seq<ShippingAddress>, string>)
    ensures profile.Some? ==>
      createdFor == None && written == Success(AddedList(Stored(profile.value), address, newId))
    ensures profile.None? && currentUser.None? ==>
      createdFor == None && written == Failure(UserNotAuthenticated)
    ensures profile.None? && currentUser.Some? ==>
      && createdFor == Some(EmailOrEmpty(currentUser.value))
      && written == match reread
                    case None => Failure(FailedToCreateProfile)
                    case Some(p) => Success(AddedList(Stored(p), address, newId))
  {
    createdFor := None;
    var current := profile;
    if current.None? {
      if currentUser.None? {
        written := Failure(UserNotAuthenticated);
        return;
      }
      createdFor := Some(EmailOrEmpty(currentUser.value));
      current := reread;
      if current.None? {
        written := Failure(FailedToCreateProfile);
        return;
      }
    }
    var newAddress := WithId(address, newId);
    var stored := Stored(current.value);
    var addresses := new ShippingAddress[|stored|](i requires 0 <= i < |stored| => stored[i]);
    assert addresses[..] == stored;
    if address.isDefault {
      ClearDefaults(addresses);
    }
    written := Success(addresses[..] + [newAddress]);
  }

  /** updateShippingAddress. `profile` is the profile read; nothing is written on an error. */
  method UpdateShippingAddress(profile: Option<UserProfile>, addressId: string, patch: AddressPatch)
    returns (written: Result<seq<ShippingAddress>, string>)
    ensures profile.None? ==> written == Failure(ProfileNotFound)
    ensures profile.Some? && IndexOfId(Stored(profile.value), addressId) == -1 ==>
      written == Failure(AddressNotFound)
    ensures profile.Some? && IndexOfId(Stored(profile.value), addressId) >= 0 ==>
      written == Success(PatchedList(Stored(profile.value), IndexOfId(Stored(profile.value), addressId), patch))
  {
    if profile.None? {
      written := Failure(ProfileNotFound);
      return;
    }
    var stored := Stored(profile.value);
    var addresses := new ShippingAddress[|stored|](i requires 0 <= i < |stored| => stored[i]);
    assert addresses[..] == stored;
    var index := IndexOfId(addresses[..], addressId);
    if index == -1 {
      written := Failure(AddressNotFound);
      return;
    }
    if patch.isDefault == Some(true) {
      ClearDefaults(addresses);
    }
    addresses[index] := ApplyPatch(addresses[index], patch);
    written := Success(addresses[..]);
  }

  // ---------------------------------------------------------------------------
  // Properties of the written lists
  // ---------------------------------------------------------------------------

  /** A fresh id keeps ids unique. */
  lemma AddedKeepsIdsUnique(existing: seq<ShippingAddress>, address: AddressInput, newId: string)
    requires UniqueIds(existing)
    requires forall i | 0 <= i < |existing| :: existing[i].id != newId
    ensures UniqueIds(AddedList(existing, address, newId))
  {
    var r := AddedList(existing, address, newId);
    forall i, j | 0 <= i < j < |r| ensures r[i].id != r[j].id {
      assert r[i].id == existing[i].id;
    }
  }

  /** Adding keeps at most one default; a default new address is the only one. */
  lemma AddedKeepsOneDefault(existing: seq<ShippingAddress>, address: AddressInput, newId: string)
    requires AtMostOneDefault(existing)
    ensures AtMostOneDefault(AddedList(existing, address, newId))
  {
    var r := AddedList(existing, address, newId);
    if !address.isDefault {
      forall i, j | 0 <= i < j < |r| ensures !(r[i].isDefault && r[j].isDefault) {
        assert r[..|existing|] == existing;
        if j < |existing| {
          assert r[i] == existing[i] && r[j] == existing[j];
        }
      }
    }
  }

  /** An update sets the target's patched fields, keeps its others, and keeps length and order of ids. */
  lemma PatchedFields(existing: seq<ShippingAddress>, k: nat, patch: AddressPatch)
    requires k < |existing|
    ensures var t := PatchedList(existing, k, patch)[k];
      && t.id == Or(patch.id, existing[k].id)
      && t.name == Or(patch.name, existing[k].name)
      && t.street == Or(patch.street, existing[k].street)
      && t.city == Or(patch.city, existing[k].city)
      && t.state == Or(patch.state, existing[k].state)
      && t.zipCode == Or(patch.zipCode, existing[k].zipCode)
      && t.country == Or(patch.country, existing[k].country)
      && t.isDefault == Or(patch.isDefault, existing[k].isDefault)
    ensures forall i | 0 <= i < |existing| && i != k :: PatchedList(existing, k, patch)[i].id == existing[i].id
  {
  }

  /** A patch that sets `isDefault` makes the target the sole default. */
  lemma PatchToDefaultIsSole(existing: seq<ShippingAddress>, k: nat, patch: AddressPatch)
    requires k < |existing| && patch.isDefault == Some(true)
    ensures forall i | 0 <= i < |existing| :: PatchedList(existing, k, patch)[i].isDefault <==> i == k
  {
  }

  /** A patch that does not set `isDefault` to true changes no other address's flag and keeps at most one default. */
  lemma PatchWithoutDefaultKeepsFlags(existing: seq<ShippingAddress>, k: nat, patch: AddressPatch)
    requires k < |existing| && patch.isDefault != Some(true)
    ensures forall i | 0 <= i < |existing| && i != k ::
      PatchedList(existing, k, patch)[i].isDefault == existing[i].isDefault
    ensures AtMostOneDefault(existing) ==> AtMostOneDefault(PatchedList(existing, k, patch))
  {
    var r := PatchedList(existing, k, patch);
    if AtMostOneDefault(existing) {
      forall i, j | 0 <= i < j < |r| ensures !(r[i].isDefault && r[j].isDefault) {
        assert r[i].isDefault ==> existing[i].isDefault;
        assert r[j].isDefault ==> existing[j].isDefault;
      }
    }
  }

  /** Clearing the flag of the current sole default leaves the list with no default at all. */
  lemma PatchOffSoleDefaultLeavesNone(existing: seq<ShippingAddress>, k: nat, patch: AddressPatch)
    requires k < |existing| && patch.isDefault == Some(false)
    requires existing[k].isDefault && AtMostOneDefault(existing)
    ensures forall i | 0 <= i < |existing| :: !PatchedList(existing, k, patch)[i].isDefault
  {
  }

  /** An update whose patch leaves the id alone keeps ids unique. */
  lemma PatchKeepsIdsUnique(existing: seq<ShippingAddress>, k: nat, patch: AddressPatch)
    requires k < |existing| && UniqueIds(existing)
    requires patch.id == None || patch.id == Some(existing[k].id)
    ensures UniqueIds(PatchedList(existing, k, patch))
  {
    var r := PatchedList(existing, k, patch);
    assert forall i | 0 <= i < |r| :: r[i].id == existing[i].id;
  }
}
