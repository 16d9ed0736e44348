# factureo core, modelled in Dafny

factureo is an invoicing app. A signed-in user keeps a list of clients and
issues invoices (factures) to them. Each invoice is made of lines with a
quantity, a unit price and a VAT rate. Its totals before tax (HT), of tax
(TVA) and with tax (TTC) are the sums over its lines. An invoice is numbered
`FAC-<year>-<counter>` and moves through DRAFT, SENT, PAID, OVERDUE and
CANCELLED. Once it is PAID it can be neither changed nor deleted.

The model covers:

- the domain:
  - the `Email` and `Password` value objects;
  - the `DocumentCommercial` base class and its totals;
  - the `Facture`, `Client` and `User` entities;
- the in-memory database: three insertion-ordered maps plus the signed-in user id, filled with seed data;
- the three in-memory repositories;
- the use cases for invoices, clients, login and registration;
- the parts of the two list screens and of the invoice form that hold logic:
  - search;
  - pagination;
  - the client name shown on an invoice;
  - when "mark as paid" is offered;
  - how a form line is computed;
  - the checks the form makes before it submits.

How the model is laid out:

- There is one module per source file.
  - `Store.Table` models a JavaScript `Map`: its keys in insertion order, plus the stored rows.
  - The modules `Wrappers`, `Errors`, `Time` and `Text` hold the values the others share.
- A thrown `Error` is a `Failure` carrying one of the `Errors.Error` cases. Each case maps to the source's exact message.
- Mutable objects are classes:
  - `InMemoryDB` with its maps as fields;
  - the repositories over the one shared database;
  - the use cases over the repositories;
  - `DocumentCommercial`.
- Each write is a method specified by a function of the state before the call. That function's properties are proved as lemmas.
- The clock (`now`) and generated ids are parameters of the operations that use them.
- The year an invoice is numbered in is `now.year`.

## Model

| member | source | states |
|---|---|---|
| Emails.Create | src/domain/valueObjects/Email.ts:9-35 | A blank input gives "L'email ne peut pas être vide". A failure is only ever one of the three email messages. A success holds a valid address whose value is the input lower-cased and trimmed. |
| Emails.CheckOrder | src/domain/valueObjects/Email.ts:20-35 | Each check fails exactly when the earlier ones pass and its own fails: empty after trimming, then the pattern, then more than 254 characters. An address is accepted iff all three pass. |
| Emails.PatternMeaning | src/domain/valueObjects/Email.ts:27-30 | The pattern `^[^\s@]+@[^\s@]+\.[^\s@]+$` matches iff there is exactly one `@` and no white space, the part before the `@` is non-empty, and the domain holds a dot with text on both sides (both directions). |
| Emails.PatternLower | src/domain/valueObjects/Email.ts:9-12 | Lower-casing an address that matches the pattern keeps it matching, so the stored value is itself a valid address. |
| Emails.NormalizedIsValid | src/domain/valueObjects/Email.ts:9-12 | The value stored from an accepted input (trimmed, lower-cased) satisfies the validity invariant. |
| Emails.StoredValue | src/domain/valueObjects/Email.ts:11 | The stored value is `trim(toLowerCase(raw))`, in the source's order. |
| Emails.Idempotent | src/domain/valueObjects/Email.ts:9-12 | Building an `Email` from a valid email's value gives back the same email. |
| Emails.Equals | src/domain/valueObjects/Email.ts:41-43 | `equals` compares the stored values. `Emails.EqualsUpToCaseAndSpace` states what that means for the raw inputs: they agree after lower-casing and trimming. |
| Emails.EqualsUpToCaseAndSpace | src/domain/valueObjects/Email.ts:41-43 | Two accepted emails are `equals` iff their inputs agree after lower-casing and trimming. |
| Passwords.Create | src/domain/valueObjects/Password.ts:9-46 | Succeeds iff the password is strong, and keeps it unchanged. On failure it reports the first check that fails: empty, fewer than 8 characters, no upper-case letter, no lower-case letter, no digit, no character of `@$!%*?&#`. |
| Passwords.CreateErrors | src/domain/valueObjects/Password.ts:22-46 | A rejected password always carries one of the six strength messages. |
| Passwords.Hash | src/domain/valueObjects/Password.ts:56-59 | The hash is `hashed_` followed by the password itself. |
| Passwords.Verify | src/domain/valueObjects/Password.ts:65-68 | `verify(plain, hashed)` holds when `hashed` is the prefix followed by `plain`. `Passwords.VerifyHash` and `Passwords.VerifyIgnoresStrength` state it against `hash`. |
| Passwords.VerifyHash | src/domain/valueObjects/Password.ts:56-68 | `verify(plain, hash(p))` holds iff `plain` is the password `p` holds. |
| Passwords.VerifyIgnoresStrength | src/domain/valueObjects/Password.ts:65-68 | `verify` accepts `hashed_` + plain for any plain, including a password that `Password` itself would refuse. |
| Documents.SumAppend | src/domain/entities/DocumentCommercial.ts:45-49 | Summing a line amount over two lists one after the other is the sum of the two sums. |
| Documents.SumTTCSplits | src/domain/entities/DocumentCommercial.ts:45-49 | When every line has TTC = HT + TVA, the document's TTC total is its HT total plus its TVA total. |
| Documents.SumFilterSplit | src/domain/entities/DocumentCommercial.ts:62-65 | A total is what removing a line id keeps plus what it drops. |
| Documents.FilterMissingId | src/domain/entities/DocumentCommercial.ts:62-65 | Removing an id that no line carries leaves the lines unchanged. |
| Documents.DocumentCommercial.constructor | src/domain/entities/DocumentCommercial.ts:29-40 | Copies every field, and the lines default to the empty list when none are given. |
| Documents.DocumentCommercial.CalculerTotaux | src/domain/entities/DocumentCommercial.ts:45-49 | Afterwards the three totals are the sums over the lines. An empty document has zero totals. |
| Documents.DocumentCommercial.AjouterLigne | src/domain/entities/DocumentCommercial.ts:54-57 | The line is appended. Each total grows by that line's amount, and the totals again match the lines. |
| Documents.DocumentCommercial.SupprimerLigne | src/domain/entities/DocumentCommercial.ts:62-65 | Every line with that id is removed and the others keep their order. Each total drops by exactly the removed lines' amounts. |
| Factures.FromFacture | src/domain/entities/Facture.ts:48-71 | The entity carries every field of the invoice record, its totals included. |
| Factures.CalculateMontantHT | src/domain/entities/Facture.ts:76-78 | The HT total of an invoice without lines is 0. Its additivity is in `CalculateSplits`. |
| Factures.CalculateMontantTVA | src/domain/entities/Facture.ts:83-85 | The TVA total of an invoice without lines is 0. Its additivity is in `CalculateSplits`. |
| Factures.CalculateMontantTTC | src/domain/entities/Facture.ts:90-92 | The TTC total of an invoice without lines is 0. Its additivity is in `CalculateSplits`. |
| Factures.CalculateSplits | src/domain/entities/Facture.ts:76-92 | When the lines are split into two parts, each of the three totals is the sum of the parts' totals. |
| Factures.CalculateTTCIsHTPlusTVA | src/domain/entities/Facture.ts:76-92 | When every line has TTC = HT + TVA, so does the invoice. |
| Factures.MarquerPayee | src/domain/entities/Facture.ts:97-105 | The copy is PAID, with `status_paiement` "PAID", the payment date and `updatedAt` = now. Everything else is kept, except the totals: the spread does not carry them to the new entity. |
| Factures.MarquerAnnulee | src/domain/entities/Facture.ts:117-126 | Fails with "Impossible d'annuler une facture déjà payée" iff the invoice is PAID. Otherwise it returns a CANCELLED copy. |
| Factures.EstRetard | src/domain/entities/Facture.ts:110-112 | Overdue means not PAID and the due date strictly before the clock. `Factures.PaidNeverOverdue` and `Factures.CancelledCanBeOverdue` state its two consequences. |
| Factures.PaidNeverOverdue | src/domain/entities/Facture.ts:97-112 | An invoice marked paid is never overdue, whatever the clock says. |
| Factures.PaidCannotBeCancelled | src/domain/entities/Facture.ts:97-126 | Cancelling an invoice that was marked paid always fails. |
| Factures.CancelTwice | src/domain/entities/Facture.ts:117-126 | Cancelling a cancelled invoice succeeds again and stays CANCELLED. |
| Factures.CancelledCanBeOverdue | src/domain/entities/Facture.ts:110-126 | A cancelled invoice past its due date still counts as overdue, since the check only excludes PAID. |
| Factures.TwoLineFixture | src/domain/entities/__tests__/Facture.test.ts:13-51 | The test invoice is a DRAFT with two lines, issued on 2024-02-01 and due on 2024-03-01. |
| Factures.FixtureTotals | src/domain/entities/__tests__/Facture.test.ts:53-67 | On the test invoice the totals come out as HT 1300, TVA 260 and TTC 1560, the totals it stores. |
| Factures.FixtureStatusTests | src/domain/entities/__tests__/Facture.test.ts:70-121 | Paying the test invoice on 2024-02-20 marks it PAID with that date. Due on 2020-01-01, it is overdue when SENT and not when PAID. It can be cancelled unless it is PAID. |
| Clients.Update | src/domain/entities/Client.ts:40-46 | Each field is the update's value when the update gives one, else the client's own. `updatedAt` is the clock. |
| Clients.UpdateNothing | src/domain/entities/Client.ts:40-46 | An empty update only refreshes `updatedAt`. |
| Clients.UpdateTwice | src/domain/entities/Client.ts:40-46 | Two updates in a row equal one update with the merged patch, where the later field wins. |
| Clients.UpdateIdempotent | src/domain/entities/Client.ts:40-46 | Applying the same update twice at the same instant is applying it once. |
| Users.FullName | src/domain/entities/User.ts:53-55 | The full name is the first name, one space, then the last name. |
| Users.FullNameSplits | src/domain/entities/User.ts:53-55 | For first names without a space, equal full names mean equal first and last names, and conversely. |
| Users.UpdateProfile | src/domain/entities/User.ts:57-63 | Each field is the update's value when the update gives one, else the user's own. `updatedAt` is the clock. |
| Users.RenameFullName | src/domain/entities/User.ts:53-63 | A profile update that leaves both names out keeps the full name. |
| InMemory.SeedClients | src/infrastructure/inMemory/InMemoryDB.ts:46-110 | The seed has five clients. |
| InMemory.SeedFactures | src/infrastructure/inMemory/InMemoryDB.ts:112-173 | The seed has two invoices. |
| InMemory.SeedClientsOwned | src/infrastructure/inMemory/InMemoryDB.ts:46-110 | Every seeded client belongs to `user-1`. |
| InMemory.SeedFacturesShape | src/infrastructure/inMemory/InMemoryDB.ts:112-173 | `facture-1` is PAID and billed to `client-1`. `facture-2` is SENT and billed to `client-2`. |
| InMemory.SeedFacturesConsistent | src/infrastructure/inMemory/InMemoryDB.ts:112-173 | Each seeded invoice's totals are the sums over its lines, and each line has TTC = HT + TVA. |
| InMemory.SeedUsersValid | src/infrastructure/inMemory/InMemoryDB.ts:28-44 | The users map is well formed, keyed by id and has unique emails. It holds exactly the test user. |
| InMemory.SeedClientsValid | src/infrastructure/inMemory/InMemoryDB.ts:46-110 | The clients map is well formed and keyed by id. |
| InMemory.SeedClientsValues | src/infrastructure/inMemory/InMemoryDB.ts:46-110 | Listing the clients map gives the five clients in seeding order. |
| InMemory.SeedFacturesValid | src/infrastructure/inMemory/InMemoryDB.ts:112-173 | The invoices map is well formed and keyed by id. Its rows carry their line sums, and it lists the two invoices in order. |
| InMemory.SeedUsersInto | src/infrastructure/inMemory/InMemoryDB.ts:28-44 | `set`ting the test user into an empty map gives the seeded users table. |
| InMemory.SeedClientsInto | src/infrastructure/inMemory/InMemoryDB.ts:46-110 | `set`ting the five clients, one by one, into an empty map gives the seeded clients table. |
| InMemory.SeedFacturesInto | src/infrastructure/inMemory/InMemoryDB.ts:112-173 | `set`ting the two invoices, one by one, into an empty map gives the seeded invoices table. |
| InMemory.SeedConsistent | src/infrastructure/inMemory/InMemoryDB.ts:27-174 | The seed satisfies the database invariant: well-formed maps keyed by id, consistent invoice totals and unique emails. |
| InMemory.PutFactureConsistent | src/infrastructure/inMemory/FactureRepositoryMemory.ts:62 | Storing an invoice under its id, with consistent totals, preserves the database invariant. |
| InMemory.DeleteFactureConsistent | src/infrastructure/inMemory/FactureRepositoryMemory.ts:116 | Deleting an invoice preserves the database invariant. |
| InMemory.PutClientConsistent | src/infrastructure/inMemory/ClientRepositoryMemory.ts:47 | Storing a client under its id preserves the database invariant. |
| InMemory.DeleteClientConsistent | src/infrastructure/inMemory/ClientRepositoryMemory.ts:95 | Deleting a client preserves the database invariant. |
| InMemory.PutNewUserConsistent | src/infrastructure/inMemory/AuthRepositoryMemory.ts:78 | Storing a new user whose email no stored user has preserves the database invariant. |
| InMemory.InMemoryDB.constructor | src/infrastructure/inMemory/InMemoryDB.ts:14-22 | A new database holds exactly the seed, satisfies the invariant and has nobody signed in. |
| InMemory.InMemoryDB.SeedData | src/infrastructure/inMemory/InMemoryDB.ts:27-174 | Starting from empty maps, the maps afterwards are exactly the seed tables, and the invariant holds. |
| InMemory.InMemoryDB.SeedUsers | src/infrastructure/inMemory/InMemoryDB.ts:28-44 | Afterwards the users map holds exactly the test user. |
| InMemory.InMemoryDB.SeedClientsData | src/infrastructure/inMemory/InMemoryDB.ts:46-110 | Afterwards the clients map holds exactly the five clients, in seeding order. |
| InMemory.InMemoryDB.SeedFacturesData | src/infrastructure/inMemory/InMemoryDB.ts:112-173 | Afterwards the invoices map holds exactly the two invoices, in seeding order. |
| InMemory.InMemoryDB.Reset | src/infrastructure/inMemory/InMemoryDB.ts:201-207 | Whatever the state before, the database afterwards is the seed, with nobody signed in. |
| InMemory.InMemoryDB.SetCurrentUser | src/infrastructure/inMemory/InMemoryDB.ts:190-192 | The session holds the given user id, or none. |
| InMemory.InMemoryDB.GetCurrentUserId | src/infrastructure/inMemory/InMemoryDB.ts:194-196 | Returns the session as `SetCurrentUser` last left it. |
| FactureRepository.FindByUserId | src/infrastructure/inMemory/FactureRepositoryMemory.ts:11-14 | An invoice is listed iff it is stored and belongs to that user. |
| FactureRepository.FindByClientId | src/infrastructure/inMemory/FactureRepositoryMemory.ts:16-19 | An invoice is listed iff it is stored and is billed to that client. |
| FactureRepository.StoredIffListed | src/infrastructure/inMemory/FactureRepositoryMemory.ts:11-19 | The values listed from the map are exactly the stored invoices. |
| FactureRepository.FindById | src/infrastructure/inMemory/FactureRepositoryMemory.ts:21-23 | Finds something iff the id is stored, and what it finds is the stored invoice. |
| FactureRepository.Pad3 | src/infrastructure/inMemory/FactureRepositoryMemory.ts:137 | `padStart(3, '0')` yields at least three digits that read back as the number. |
| FactureRepository.Numero | src/infrastructure/inMemory/FactureRepositoryMemory.ts:139 | An invoice number starts with `FAC-` and has at least nine characters. |
| FactureRepository.NumeroTail | src/infrastructure/inMemory/FactureRepositoryMemory.ts:137-139 | After `FAC-` come the year, a dash and the padded counter. |
| FactureRepository.NumeroInjective | src/infrastructure/inMemory/FactureRepositoryMemory.ts:127-140 | Two numbers are equal iff they have the same year and the same counter. |
| FactureRepository.YearCount | src/infrastructure/inMemory/FactureRepositoryMemory.ts:129-134 | The count of a user's invoices issued in a year is at most the number of that user's invoices. |
| FactureRepository.GenerateNextNumero | src/infrastructure/inMemory/FactureRepositoryMemory.ts:127-140 | The next number is `FAC-<year>-` followed by a counter between 1 and the user's invoice count plus one. |
| FactureRepository.Built | src/infrastructure/inMemory/FactureRepositoryMemory.ts:42-60 | The stored invoice has the given id, number and clock, the caller's other fields, and totals recomputed from its lines. |
| FactureRepository.CreateResult | src/infrastructure/inMemory/FactureRepositoryMemory.ts:31-65 | Fails with "Client introuvable" iff the client is not stored. Otherwise the new invoice has the new id, the next number for the user and year, the given lines, totals consistent with them, and `createdAt` = `updatedAt` = now. |
| FactureRepository.CreateIgnoresCallerTotals | src/infrastructure/inMemory/FactureRepositoryMemory.ts:51-57 | Whatever totals the caller passes, the created invoice is the same. |
| FactureRepository.CountAfterPut | src/infrastructure/inMemory/FactureRepositoryMemory.ts:127-136 | Storing a new invoice raises its user's count for a year by one exactly when it was issued in that year. |
| FactureRepository.CountAfterOtherPut | src/infrastructure/inMemory/FactureRepositoryMemory.ts:127-136 | Storing another user's invoice leaves a user's count unchanged. |
| FactureRepository.CreatedIssuedIn | src/infrastructure/inMemory/FactureRepositoryMemory.ts:38-60 | A created invoice has the new id, the caller's user and issue date, and the number `FAC-<year>-` followed by the user's count for the year plus one. |
| FactureRepository.NextNumberAfterPut | src/infrastructure/inMemory/FactureRepositoryMemory.ts:127-140 | Once an invoice issued in the year is stored, its user's count rises by one, and their next number carries the count before it plus two. |
| FactureRepository.ConsecutiveNumbers | src/infrastructure/inMemory/FactureRepositoryMemory.ts:31-65 | After a user creates an invoice issued in the current year, that user's count rises by one, and their next number differs from the one just used. |
| FactureRepository.Apply | src/infrastructure/inMemory/FactureRepositoryMemory.ts:83-95 | The spread keeps id, owner, number and payment fields, and takes each given change. Totals are recomputed only when lines are given. Consistent totals stay consistent. |
| FactureRepository.UpdateResult | src/infrastructure/inMemory/FactureRepositoryMemory.ts:72-100 | An unknown id gives "Facture introuvable". A PAID invoice whose status the change does not keep PAID gives "Impossible de modifier une facture déjà payée". The update succeeds iff neither holds, and then yields the spread. |
| FactureRepository.UpdateStatusOnPaid | src/infrastructure/inMemory/FactureRepositoryMemory.ts:79-81 | A PAID invoice refuses SENT and accepts PAID again. |
| FactureRepository.DeleteResult | src/infrastructure/inMemory/FactureRepositoryMemory.ts:106-117 | An unknown id gives "Facture introuvable". A PAID invoice gives "Impossible de supprimer une facture payée". Deletion succeeds iff the invoice is stored and not PAID. |
| FactureRepository.PaidIsFinal | src/infrastructure/inMemory/FactureRepositoryMemory.ts:72-117 | A PAID invoice stays PAID through every update that succeeds, and it cannot be deleted. |
| FactureRepository.FactureRepositoryMemory.Create | src/infrastructure/inMemory/FactureRepositoryMemory.ts:31-65 | Returns `CreateResult`. On success the invoice is `set` under its id; on failure the map is unchanged. The database invariant is kept. |
| FactureRepository.FactureRepositoryMemory.Update | src/infrastructure/inMemory/FactureRepositoryMemory.ts:72-100 | Returns `UpdateResult`. On success the invoice is stored again; on failure the map is unchanged. The invariant is kept. |
| FactureRepository.FactureRepositoryMemory.Delete | src/infrastructure/inMemory/FactureRepositoryMemory.ts:106-117 | Returns `DeleteResult`. On success the key is removed; on failure the map is unchanged. The invariant is kept. |
| FactureRepository.FactureRepositoryMemory.UpdateStatus | src/infrastructure/inMemory/FactureRepositoryMemory.ts:119-121 | Is an update whose change is the status alone. |
| ClientRepository.FindByUserId | src/infrastructure/inMemory/ClientRepositoryMemory.ts:16-19 | A client is listed iff it is stored and belongs to that user. |
| ClientRepository.FindById | src/infrastructure/inMemory/ClientRepositoryMemory.ts:21-23 | Finds something iff the id is stored, and what it finds is the stored client. |
| ClientRepository.CreateResult | src/infrastructure/inMemory/ClientRepositoryMemory.ts:31-50 | Fails iff the email is refused, and with the email's own message. Otherwise the client carries the normalised email and the caller's other fields, the new id and the clock. |
| ClientRepository.CheckedEmail | src/infrastructure/inMemory/ClientRepositoryMemory.ts:64-68 | An absent or empty email passes unchecked. Any other is validated and replaced by its normalised form. |
| ClientRepository.AsPatch | src/infrastructure/inMemory/ClientRepositoryMemory.ts:70-74 | The patch spread over the client holds the given fields, with the checked email. It never holds id, owner or dates. |
| ClientRepository.UpdateResult | src/infrastructure/inMemory/ClientRepositoryMemory.ts:58-80 | An unknown id gives "Client introuvable". A known one fails iff the given email is refused. A success is the client with the patch spread over it. |
| ClientRepository.UpdateKeepsIdentity | src/infrastructure/inMemory/ClientRepositoryMemory.ts:58-80 | An update keeps id, owner and `createdAt`. An empty email is stored as empty, and an absent one keeps the old email. |
| ClientRepository.HasFactures | src/infrastructure/inMemory/ClientRepositoryMemory.ts:102-105 | Some stored invoice has that client. `ClientRepository.HasFacturesIff` restates it on the keys. |
| ClientRepository.HasFacturesIff | src/infrastructure/inMemory/ClientRepositoryMemory.ts:102-105 | `hasFactures` holds iff some stored invoice is billed to that client. |
| ClientRepository.DeleteResult | src/infrastructure/inMemory/ClientRepositoryMemory.ts:87-96 | Fails with "Impossible de supprimer un client avec des factures associées" iff some invoice refers to the client. |
| ClientRepository.DeleteUnknownIsSilent | src/infrastructure/inMemory/ClientRepositoryMemory.ts:87-96 | Deleting an unknown id without invoices succeeds and changes nothing. |
| ClientRepository.SeedClientsWithInvoices | src/infrastructure/inMemory/InMemoryDB.ts:112-173 | In the seed, neither `client-1` nor `client-2` can be deleted. |
| ClientRepository.ClientRepositoryMemory.Create | src/infrastructure/inMemory/ClientRepositoryMemory.ts:31-50 | Returns `CreateResult`. On success the client is `set` under its id; on failure the map is unchanged. The invariant is kept. |
| ClientRepository.ClientRepositoryMemory.Update | src/infrastructure/inMemory/ClientRepositoryMemory.ts:58-80 | Returns `UpdateResult`. On success the client is stored again; on failure the map is unchanged. The invariant is kept. |
| ClientRepository.ClientRepositoryMemory.Delete | src/infrastructure/inMemory/ClientRepositoryMemory.ts:87-96 | Returns `DeleteResult`. On success the key is removed; on failure the map is unchanged. The invariant is kept. |
| AuthRepository.LoginResult | src/infrastructure/inMemory/AuthRepositoryMemory.ts:19-42 | A refused email gives its own message. Otherwise a failure is always "Email ou mot de passe incorrect". A success is a stored user whose email is the normalised input and whose stored hash verifies the password. |
| AuthRepository.LoginFindsTheAccount | src/infrastructure/inMemory/AuthRepositoryMemory.ts:19-42 | With unique emails, signing in with a stored user's email succeeds with that user iff the password verifies against their hash. |
| AuthRepository.LoginUnknownEmail | src/infrastructure/inMemory/AuthRepositoryMemory.ts:25-30 | An email no user has gives the same message as a wrong password. |
| AuthRepository.SeedLogin | src/infrastructure/inMemory/InMemoryDB.ts:29-44 | On the seed, `test@factureo.com` with `Test1234!` signs in as the test user. |
| AuthRepository.SeedPasswordVerifies | src/infrastructure/inMemory/InMemoryDB.ts:32 | The seeded hash verifies `Test1234!`. |
| AuthRepository.SeedEmailAccepted | src/infrastructure/inMemory/InMemoryDB.ts:31 | The seeded email is accepted as it stands. |
| AuthRepository.EmailExists | src/infrastructure/inMemory/AuthRepositoryMemory.ts:100-103 | Some stored user has the lower-cased email. `AuthRepository.EmailExistsIff` restates it on the keys. |
| AuthRepository.EmailExistsIff | src/infrastructure/inMemory/AuthRepositoryMemory.ts:100-103 | `emailExists` holds iff a stored user has the lower-cased email. |
| AuthRepository.NewAccount | src/infrastructure/inMemory/AuthRepositoryMemory.ts:68-75 | The new user has the new id, the normalised email, the hashed password, the caller's other fields, and the clock. |
| AuthRepository.RegisterResult | src/infrastructure/inMemory/AuthRepositoryMemory.ts:51-84 | Errors come in this order: a refused email, then "Cet email est déjà utilisé", then the password's own message. A success implies a strong password, and stores the normalised email and `hashed_` + password. |
| AuthRepository.RegisterEmailIsNew | src/infrastructure/inMemory/AuthRepositoryMemory.ts:56-59 | A registered account's email is not already stored. |
| AuthRepository.RegisterTwiceRefused | src/infrastructure/inMemory/AuthRepositoryMemory.ts:56-59 | Registering an email that normalises to a stored one fails with "Cet email est déjà utilisé". |
| AuthRepository.CurrentUser | src/infrastructure/inMemory/AuthRepositoryMemory.ts:86-91 | Nobody is signed in when the session is empty. Otherwise it is the stored user of that id, when there is one. |
| AuthRepository.AuthRepositoryMemory.Login | src/infrastructure/inMemory/AuthRepositoryMemory.ts:19-42 | Returns `LoginResult`. A success records the user in the session; a failure leaves the session as it was. |
| AuthRepository.AuthRepositoryMemory.Register | src/infrastructure/inMemory/AuthRepositoryMemory.ts:51-84 | Returns `RegisterResult`. A success stores the account and signs it in; a failure changes nothing. Emails stay unique. |
| AuthRepository.AuthRepositoryMemory.AddAccount | src/infrastructure/inMemory/AuthRepositoryMemory.ts:77-81 | Stores the account under its id and signs it in, keeping the invariant. |
| AuthRepository.AuthRepositoryMemory.Logout | src/infrastructure/inMemory/AuthRepositoryMemory.ts:93-95 | Afterwards nobody is signed in. |
| FactureUseCases.LineError | src/application/usecases/facture/FactureUseCases.ts:81-88 | The intended line check. A quantity of 0 or less gives "La quantité doit être supérieure à 0". Otherwise a negative unit price gives "Le prix unitaire ne peut pas être négatif". A line passes iff neither holds. |
| FactureUseCases.LineErrorAsWritten | src/application/usecases/facture/FactureUseCases.ts:81-88 | The line check as written reads `quantity` and `unitPrice`, which a line never has, so it never fails. |
| FactureUseCases.Property | src/domain/entities/DocumentCommercial.ts:6-15 | A line property reads as a number iff it is one of the line's numeric fields, and as `undefined` otherwise. |
| FactureUseCases.AtMost | src/application/usecases/facture/FactureUseCases.ts:82 | `v <= x` holds iff `v` is a number not above `x`, and is false on `undefined`. |
| FactureUseCases.Below | src/application/usecases/facture/FactureUseCases.ts:85 | `v < x` holds iff `v` is a number below `x`, and is false on `undefined`. |
| FactureUseCases.FirstError | src/application/usecases/facture/FactureUseCases.ts:81-88 | The loop throws nothing iff every line passes. Otherwise it throws the error of the first line that fails. |
| FactureUseCases.FirstLineError | src/application/usecases/facture/FactureUseCases.ts:81-88 | With the intended check, no error iff every line has quantity > 0 and unit price >= 0. An error is one of those two messages. |
| FactureUseCases.AsWrittenAcceptsAnyLines | src/application/usecases/facture/FactureUseCases.ts:81-88 | As written, the loop lets every list of lines through. |
| FactureUseCases.NegativeQuantityAccepted | src/application/usecases/facture/__tests__/FactureUseCases.test.ts:96-117 | A line with quantity -1 passes the check as written but is refused with "La quantité doit être supérieure à 0" by the intended one. |
| FactureUseCases.ToNew | src/application/usecases/facture/FactureUseCases.ts:90-96 | The create call passes the caller's data as a DRAFT with zero totals and no payment fields. |
| FactureUseCases.Lookup | src/application/usecases/facture/FactureUseCases.ts:48-54 | Fails with "Facture introuvable" iff the id is not stored. Otherwise it returns the stored invoice. |
| FactureUseCases.CreateChecked | src/application/usecases/facture/FactureUseCases.ts:63-97 | Errors come in this order: unknown client, due date not after the issue date, no lines, first bad line. Success holds iff all checks pass, and yields a DRAFT with the caller's fields, the next number and totals consistent with its lines. |
| FactureUseCases.ValidInvoiceTotals | src/application/usecases/facture/__tests__/FactureUseCases.test.ts:24-47 | The test's invoice of one line, 2 x 500 at 20%, is created as a DRAFT with HT 1000 and TTC 1200. Its number starts with `FAC-2024` when the clock's year is 2024. |
| FactureUseCases.NumeroIn2024 | src/infrastructure/inMemory/FactureRepositoryMemory.ts:139 | Every number made in 2024 starts with `FAC-2024`. |
| FactureUseCases.UpdateChecked | src/application/usecases/facture/FactureUseCases.ts:104-112 | An unknown id gives "Facture introuvable". A PAID invoice whose status is not kept PAID gives "Impossible de modifier une facture payée". Otherwise the result is the repository's update. |
| FactureUseCases.UpdateGuardShadowsRepository | src/application/usecases/facture/FactureUseCases.ts:104-112 | The use case succeeds exactly when the repository would, with the same invoice. Its PAID guard fires exactly where the repository's would, so the repository's own message never reaches a caller. |
| FactureUseCases.MarkAsPaidResult | src/application/usecases/facture/FactureUseCases.ts:126-128 | Marking as paid succeeds iff the invoice exists, also when it is already PAID. It sets PAID and keeps the lines and totals. |
| FactureUseCases.MarkAsSentResult | src/application/usecases/facture/FactureUseCases.ts:133-135 | Marking as sent succeeds iff the invoice exists and is not PAID. A PAID one gives the repository's message. |
| FactureUseCases.FactureUseCases.constructor | src/application/usecases/facture/FactureUseCases.ts:26-29 | Both repositories are held, over one shared database. |
| FactureUseCases.FactureUseCases.List | src/application/usecases/facture/FactureUseCases.ts:34-36 | Lists exactly the stored invoices of the user. |
| FactureUseCases.FactureUseCases.ListByClient | src/application/usecases/facture/FactureUseCases.ts:41-43 | Lists exactly the stored invoices of the client. |
| FactureUseCases.FactureUseCases.GetById | src/application/usecases/facture/FactureUseCases.ts:48-54 | Returns `Lookup` on the invoices map. |
| FactureUseCases.FactureUseCases.Create | src/application/usecases/facture/FactureUseCases.ts:63-97 | Returns `CreateChecked`, whose line checks its loop establishes line by line. On success the new invoice is stored; on failure the map is unchanged. |
| FactureUseCases.FactureUseCases.Update | src/application/usecases/facture/FactureUseCases.ts:104-112 | Returns `UpdateChecked`. On success the invoice is stored again; on failure the map is unchanged. |
| FactureUseCases.FactureUseCases.Delete | src/application/usecases/facture/FactureUseCases.ts:119-121 | Is the repository's delete. |
| FactureUseCases.FactureUseCases.MarkAsPaid | src/application/usecases/facture/FactureUseCases.ts:126-128 | Is the repository's status update to PAID. |
| FactureUseCases.FactureUseCases.MarkAsSent | src/application/usecases/facture/FactureUseCases.ts:133-135 | Is the repository's status update to SENT. |
| ClientUseCases.Lookup | src/application/usecases/client/ClientUseCases.ts:38-44 | Fails with "Client introuvable" iff the id is not stored. Otherwise it returns the stored client. |
| ClientUseCases.CreateChecked | src/application/usecases/client/ClientUseCases.ts:51-61 | A blank name gives "Le nom du client est obligatoire". Then a blank phone gives "Le téléphone est obligatoire". Otherwise the result is the repository's create. Success holds iff name and phone are not blank and the email is accepted. |
| ClientUseCases.SpacesAreNoName | src/application/usecases/client/ClientUseCases.ts:52-54 | A name made only of white space counts as missing. |
| ClientUseCases.UpdateChecked | src/application/usecases/client/ClientUseCases.ts:67-73 | A given but blank name gives "Le nom du client ne peut pas être vide". Otherwise the result is the repository's update. |
| ClientUseCases.BlankNameBeforeLookup | src/application/usecases/client/ClientUseCases.ts:67-73 | For an unknown id with a blank name, the name message wins over "Client introuvable". |
| ClientUseCases.NameNeverBlank | src/application/usecases/client/ClientUseCases.ts:67-73 | An update that succeeds never blanks a client's name. |
| ClientUseCases.UpdateCanBlankThePhone | src/application/usecases/client/ClientUseCases.ts:56-73 | A phone that creation requires can be blanked by an update. |
| ClientUseCases.ClientUseCases.constructor | src/application/usecases/client/ClientUseCases.ts:26 | Holds the repository. |
| ClientUseCases.ClientUseCases.List | src/application/usecases/client/ClientUseCases.ts:31-33 | Lists exactly the stored clients of the user. |
| ClientUseCases.ClientUseCases.GetById | src/application/usecases/client/ClientUseCases.ts:38-44 | Returns `Lookup` on the clients map. |
| ClientUseCases.ClientUseCases.Create | src/application/usecases/client/ClientUseCases.ts:51-61 | Returns `CreateChecked`. On success the client is stored; on failure the map is unchanged. |
| ClientUseCases.ClientUseCases.Update | src/application/usecases/client/ClientUseCases.ts:67-73 | Returns `UpdateChecked`. On success the client is stored again; on failure the map is unchanged. |
| ClientUseCases.ClientUseCases.Delete | src/application/usecases/client/ClientUseCases.ts:80-82 | Is the repository's delete. |
| AuthUseCases.Caught | src/application/usecases/auth/LoginUseCase.ts:17-24 | The catch keeps successes. A failure is rethrown if it is an `Error`, and replaced by the fallback otherwise. |
| AuthUseCases.CaughtIsTransparent | src/application/usecases/auth/LoginUseCase.ts:17-24 | Since the repository only throws `Error` objects, the catch returns the repository's result unchanged. |
| AuthUseCases.LoginFallbackOnlyForOtherValues | src/application/usecases/auth/LoginUseCase.ts:19-24 | "Erreur lors de la connexion" comes out iff the thrown value was not an `Error`, or was that same error. |
| AuthUseCases.LoginUseCase.constructor | src/application/usecases/auth/LoginUseCase.ts:9 | Holds the auth repository. |
| AuthUseCases.LoginUseCase.Execute | src/application/usecases/auth/LoginUseCase.ts:16-25 | Returns the repository's `LoginResult`. A success records the user in the session; a failure leaves the session as it was. |
| AuthUseCases.RegisterUseCase.constructor | src/application/usecases/auth/RegisterUseCase.ts:22 | Holds the auth repository. |
| AuthUseCases.RegisterUseCase.Execute | src/application/usecases/auth/RegisterUseCase.ts:30-39 | Returns the repository's `RegisterResult`. A success stores exactly the new account and signs it in. A failure leaves the users and the session unchanged. |
| Paging.SliceIndex | screens/Clients/ClientsListScreen.tsx:58-62 | A `slice` index, resolved against the length, never lies past the end. |
| Paging.TotalPages | screens/Clients/ClientsListScreen.tsx:64 | `Math.ceil(n / 10)` pages hold all `n` items, and one page fewer would not. |
| Paging.ShowPagerIff | screens/Clients/ClientsListScreen.tsx:296 | The pager is drawn iff there are more than 10 items. |
| Paging.Page | screens/Clients/ClientsListScreen.tsx:58-62 | Page `p` is the slice from `(p-1)*10` to `(p-1)*10+10`. `Paging.PageWindow` and `Paging.PagesRebuild` state which items that is. |
| Paging.PageWindow | screens/Factures/FacturesListScreen.tsx:81-85 | Page `p >= 1` holds at most 10 items: those from index `(p-1)*10` up to `p*10` or the end. It is empty past the last page. |
| Paging.PagesUpToPrefix | screens/Clients/ClientsListScreen.tsx:58-62 | Pages 1 to `k` together are the first `10k` items, or all of them. |
| Paging.PagesRebuild | screens/Clients/ClientsListScreen.tsx:58-64 | Going through pages 1 to `totalPages` shows the whole filtered list, in order, each item once. |
| ClientsList.FilterClients | screens/Clients/ClientsListScreen.tsx:43-53 | A blank query shows every client. Any other query shows exactly the clients whose first name, last name or full name contains it (lower-cased, untrimmed), in their original order. |
| ClientsList.FullNameFindsClient | screens/Clients/ClientsListScreen.tsx:43-53 | Typing a client's full name finds that client. |
| ClientsList.QueryNotTrimmed | screens/Clients/ClientsListScreen.tsx:44-51 | The query is trimmed only to test for blankness: " Jean" does not find Jean Dupont. |
| FacturesList.ClientOf | screens/Factures/FacturesListScreen.tsx:66 | `find` returns a loaded client with that id, or nothing iff no loaded client has it. |
| FacturesList.FilterFactures | screens/Factures/FacturesListScreen.tsx:61-76 | A blank query shows every invoice. Any other query shows exactly those whose client is loaded and either matches, or whose number contains the query, in their original order. |
| FacturesList.UnknownClientHidden | screens/Factures/FacturesListScreen.tsx:66-68 | A search never shows an invoice whose client is not loaded, even when its number matches. |
| FacturesList.NumeroFindsFacture | screens/Factures/FacturesListScreen.tsx:61-76 | Typing an invoice's number finds it when its client is loaded. |
| FacturesList.GetClientName | screens/Factures/FacturesListScreen.tsx:178-181 | Shows "Client inconnu" when the client is not loaded, else their full name. |
| FacturesList.SearchedFacturesNamed | screens/Factures/FacturesListScreen.tsx:61-76 | Every invoice a search shows is labelled with the name of a loaded client. |
| FacturesList.ShowMarkAsPaid | screens/Factures/FacturesListScreen.tsx:301 | The action is offered on invoices that are not PAID. `FacturesList.MarkAsPaidOfferedIffItChanges` ties this to the update. |
| FacturesList.MarkAsPaidOfferedIffItChanges | screens/Factures/FacturesListScreen.tsx:301 | "Mark as paid" is offered exactly on stored invoices whose status marking them paid would change. |
| FactureForm.OrZero | screens/Factures/FactureFormModal.tsx:63-65 | `parseFloat(text) \|\| 0`: text that does not parse counts as 0. |
| FactureForm.CalculateLine | screens/Factures/FactureFormModal.tsx:62-81 | The line has HT = quantity x price, TVA = HT x rate/100 and TTC = HT + TVA, with unparsed inputs taken as 0. |
| FactureForm.FormLineTotals | screens/Factures/FactureFormModal.tsx:62-81 | The one-line invoice's TTC total is HT + TVA, that is, quantity x price x (1 + rate/100). |
| FactureForm.FormLineExample | screens/Factures/FactureFormModal.tsx:62-81 | 2 x 500 at 20% gives HT 1000, TVA 200 and TTC 1200. |
| FactureForm.Submit | screens/Factures/FactureFormModal.tsx:83-108 | The alerts come in this order: no client, no due date, empty description or unit price. It sends iff all four fields are filled, and then sends exactly one line computed as above. |
| FactureForm.UnparsedQuantityRefused | screens/Factures/FactureFormModal.tsx:62-108 | A quantity that does not parse becomes 0, and the form still sends it. The intended use-case check then refuses it with "La quantité doit être supérieure à 0". |

## Left out

Outside the model:

- `generer_pdf` only logs to the console and is not modelled.
- React state and rendering are not modelled:
  - the screens' hooks, modals, navigation and alerts as UI;
  - loading and error states;
  - the `react-query` caches.
- The getters `getUsers`, `getClients` and `getFactures` hand out the live maps. The model lets the repositories reassign the database's fields instead, so aliasing of those maps by other callers is not modelled.
- `async`/`await` and concurrency are left out. Every operation runs to completion before the next.
- Time and ids:
  - `Date.now()`, `new Date()` and `Math.random()` are parameters: the clock `now` and the new ids.
  - Create methods require an id that is not yet stored, which the random ids make overwhelmingly likely but do not guarantee.
- Amounts are exact reals, so the floating-point rounding of `number` is not modelled.
- `parseFloat` is not modelled. What it makes of the typed quantity, price and rate is an input of the form, with `None` standing for `NaN`.
- `new Date(text)` is not modelled. The issue and due dates reach the form as plain `Date` inputs, so a date that does not parse cannot be expressed.
- Text:
  - `toLowerCase` is modelled on ASCII letters only.
  - `trim` and `\s` are modelled on the ASCII white-space characters. The rest of Unicode white space is not.
- Data shape:
  - The use cases receive typed DTOs. `!data.lines` (lines that are `null`) and undefined string fields cannot occur.
  - The repositories' `Partial<...>` patches carry only the fields the use-case DTOs have, so a caller cannot overwrite ids or dates through them.
  - `null` and `undefined` are both `None`.
- The caller's DTO being mutated by `ClientRepositoryMemory.update` (it writes the normalised email back into `updates`) is not observable in the model.
- The seed clients carry `prenom`, `nom` and `adress`, not `name` and `address`:
  - In the `Client` record they are stored with `name` = "prenom nom" and `address` = `adress`.
  - The list screens read `prenom` and `nom`. The screens' search works on their own view of a client (`ClientsList.ClientView`).
- FactureForm.Submit: takes the due date as a valid `Date`. In the source a due date that does not parse becomes an Invalid Date and is sent anyway.
- FactureUseCases.CreateChecked: takes the due date as a valid `Date`. In the source an Invalid Date makes `dateEcheance <= dateEmission` false, so the invoice would be created with it.
- Documents.DocumentCommercial.constructor: copies the lines as a value. In the source `data.lines || []` keeps the caller's array, so later pushes onto the document's lines also change the caller's `data.lines`.
- Documents.DocumentCommercial.AjouterLigne: appends to the document's own sequence of lines. In the source the `push` also changes every other holder of the same array: the caller's `data.lines` and the copies made by `marquer_payee` and `marquer_annulee`.
- Factures.MarquerPayee: returns a copy with its own lines. In the source the `...this` spread makes the copy share one lines array with the original.
- Factures.MarquerAnnulee: returns a copy with its own lines. In the source the `...this` spread makes the copy share one lines array with the original.
- Emails.Create: measures the 254-character cap in Unicode characters. `length` in the source counts UTF-16 code units, so an address with characters outside the Basic Multilingual Plane is longer there.
- Passwords.Create: measures the 8-character minimum in Unicode characters. `length` in the source counts UTF-16 code units, so a password such as two emoji followed by "Aa1!" is accepted there (length 8) and refused here (6 characters).
- FactureUseCases.FactureUseCases.constructor: requires both repositories to share one database. The application wires them so, but the constructor's types do not force it.
- Paging.PageWindow: states the window for pages from 1 on only, the pages the pager can select.
- Factures.CalculateMontantHT: its own contract states only the empty case. Its sum is stated through `CalculateSplits` and `CalculateTTCIsHTPlusTVA`.
- Factures.CalculateMontantTVA: its own contract states only the empty case. Its sum is stated through `CalculateSplits` and `CalculateTTCIsHTPlusTVA`.
- Factures.CalculateMontantTTC: its own contract states only the empty case. Its sum is stated through `CalculateSplits` and `CalculateTTCIsHTPlusTVA`.

Notes on the source:

- The client test that expects `client-2` to be deletable contradicts the seed. `facture-2` is billed to `client-2`, so the deletion is refused (`ClientRepository.SeedClientsWithInvoices`).
- The invoice test's `FAC-2024` prefix holds only when the clock's year is 2024. The number uses the current year, not the issue date's year (`FactureUseCases.ValidInvoiceTotals`).
- `marquer_payee` and `marquer_annulee` spread the entity, whose totals are named `montant_HT`, `montant_TVA` and `montant_TTC`. The `Facture` fields `montantHT`, `montantTVA` and `montantTTC` they build from are therefore undefined, and the copies lose their totals.
- The PAID guard of `FactureUseCases.update` repeats the repository's, with a different message, so the repository's message is never seen through that path (`FactureUseCases.UpdateGuardShadowsRepository`). `markAsSent` goes straight to the repository and does show the repository's message.
- An update can set a client's phone to blank, although creation requires it (`ClientUseCases.UpdateCanBlankThePhone`).

## Findings

| source | as written | input that shows it | evidently intended | confidence | as-written member | corrected member |
|---|---|---|---|---|---|---|
| src/application/usecases/facture/FactureUseCases.ts:81-88 | The line loop tests `line.quantity <= 0` and `line.unitPrice < 0`. Invoice lines have no such fields, both reads are `undefined`, both comparisons are false, and no line is ever refused. | A line with `quantite` -1 and `unitaire` 100, as in the use-case test "devrait rejeter une ligne avec quantité négative". Creation goes ahead instead of failing. | Test `quantite <= 0` ("La quantité doit être supérieure à 0") and `unitaire < 0` ("Le prix unitaire ne peut pas être négatif"). | not executed | FactureUseCases.NegativeQuantityAccepted | FactureUseCases.CreateChecked |
