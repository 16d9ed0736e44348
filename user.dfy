/**
 * The account holder. `fullName` joins first and last name with a space;
 * `updateProfile` builds a new user from `{ ...this, ...updates, updatedAt: now }`.
 * The banking fields are optional and copied as they are.
 */
module Users {
  import opened Wrappers
  import opened Time

  datatype User = User(
    id: string,
    email: string,
    password: string,
    firstName: string,
    lastName: string,
    phone: string,
    companyName: string,
    address: string,
    bankName: Option<string>,
    iban: Option<string>,
    swift: Option<string>,
    createdAt: Date,
    updatedAt: Date)

  /** `Partial<User>`. */
  datatype UserPatch = UserPatch(
    id: Option<string>,
    email: Option<string>,
    password: Option<string>,
    firstName: Option<string>,
    lastName: Option<string>,
    phone: Option<string>,
    companyName: Option<string>,
    address: Option<string>,
    bankName: Option<string>,
    iban: Option<string>,
    swift: Option<string>,
    createdAt: Option<Date>,
    updatedAt: Option<Date>)

  /** The `fullName` getter: first name, one space, last name. */
  function FullName(u: User): (r: string)
    ensures |r| == |u.firstName| + 1 + |u.lastName|
    ensures r[..|u.firstName|] == u.firstName
    ensures r[|u.firstName|] == ' '
    ensures r[|u.firstName| + 1..] == u.lastName
  {
    u.firstName + " " + u.lastName
  }

  /** The name parts can be read back from the full name when the first name has no space. */
  lemma FullNameSplits(u: User, v: User)
    requires ' ' !in u.firstName && ' ' !in v.firstName
    ensures FullName(u) == FullName(v) <==> u.firstName == v.firstName && u.lastName == v.lastName
  {
    if FullName(u) == FullName(v) {
      var a, b := FullName(u), FullName(v);
      var m := if |u.firstName| < |v.firstName| then |u.firstName| else |v.firstName|;
      assert a[m] == b[m];
    }
  }

  /** `updateProfile(updates)`, with the clock passed in. */
  function UpdateProfile(u: User, p: UserPatch, now: Date): (r: User)
    ensures p.id.Some? ==> r.id == p.id.value
    ensures p.id.None? ==> r.id == u.id
    ensures p.email.Some? ==> r.email == p.email.value
    ensures p.email.None? ==> r.email == u.email
    ensures p.password.Some? ==> r.password == p.password.value
    ensures p.password.None? ==> r.password == u.password
    ensures p.firstName.Some? ==> r.firstName == p.firstName.value
    ensures p.firstName.None? ==> r.firstName == u.firstName
    ensures p.lastName.Some? ==> r.lastName == p.lastName.value
    ensures p.lastName.None? ==> r.lastName == u.lastName
    ensures p.phone.Some? ==> r.phone == p.phone.value
    ensures p.phone.None? ==> r.phone == u.phone
    ensures p.companyName.Some? ==> r.companyName == p.companyName.value
    ensures p.companyName.None? ==> r.companyName == u.companyName
    ensures p.address.Some? ==> r.address == p.address.value
    ensures p.address.None? ==> r.address == u.address
    ensures p.bankName.Some? ==> r.bankName == p.bankName
    ensures p.bankName.None? ==> r.bankName == u.bankName
    ensures p.iban.Some? ==> r.iban == p.iban
    ensures p.iban.None? ==> r.iban == u.iban
    ensures p.swift.Some? ==> r.swift == p.swift
    ensures p.swift.None? ==> r.swift == u.swift
    ensures p.createdAt.Some? ==> r.createdAt == p.createdAt.value
    ensures p.createdAt.None? ==> r.createdAt == u.createdAt
    ensures r.updatedAt == now
  {
    User(
      Override(p.id, u.id),
      Override(p.email, u.email),
      Override(p.password, u.password),
      Override(p.firstName, u.firstName),
      Override(p.lastName, u.lastName),
      Override(p.phone, u.phone),
      Override(p.companyName, u.companyName),
      Override(p.address, u.address),
      Later(p.bankName, u.bankName),
      Later(p.iban, u.iban),
      Later(p.swift, u.swift),
      Override(p.createdAt, u.createdAt),
      now)
  }

  /** A profile update that carries neither name keeps the full name. */
  lemma RenameFullName(u: User, p: UserPatch, now: Date)
    requires p.firstName.None? && p.lastName.None?
    ensures FullName(UpdateProfile(u, p, now)) == FullName(u)
  {
  }
}
