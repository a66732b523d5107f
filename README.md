# Adoptly, modelled in Dafny

Adoptly is a pet-adoption web application in two packages. In the backend, an
Express server keeps three MongoDB collections (users, pets and adoption
applications) behind Mongoose schemas. It authenticates with a JWT, which is
read from a `Bearer` header or a `token` cookie. Its handlers let adopters
apply for pets and sellers list, edit and delete pets. The frontend is a React
client. It has forms validated with zod, a paged browse grid, a seller's page
for reviewing applications, and a global store holding the logged-in user. A
small Python script, `extract.py`, splits the repository's source into one
backend and one frontend text file.

The project models:

- **The splitter** (`extract.dfy`). The directory tree is a value. The two
  output files are the fields of an `Outputs` object, and every `open` call is
  logged. The `os.walk` loop is a method with an explicit stack of pending
  directories. It is proved to append exactly the records of the files a
  pruned top-down walk visits, each to its own output, after one truncation
  of each output.
- **The models** (`pet_model.dfy`, `user_model.dfy`, `application_model.dfy`,
  with `schema.dfy`, `email_pattern.dfy`, `ids.dfy` and `strings.dfy`, which
  model the Mongoose and JavaScript pieces they use). Each schema is a
  validation function that returns the failing messages in path order. Each
  has a reference predicate `Valid` for the documents it accepts, and `Create`
  and `Update` run setters, then defaults, then validation. Lemmas show that
  creation yields valid documents, that every valid document is accepted
  again unchanged, and which inputs are refused.
- **The store** (`store.dfy`). A `Store` object holds the three collections as
  maps from ObjectId. Its invariant `Consistent` says two things: emails are
  unique, and a pet's `listed_by` agrees with its owner's `listed_pets`.
- **The handlers** (`pet_controller.dfy`, `auth_controller.dfy`,
  `user_controller.dfy`, `application_controller.dfy`,
  `contact_controller.dfy`), **the `isLoggedIn` middleware**
  (`is_logged_in.dfy`), **`app.js`** (`app.dfy`) and **the upload route**
  (`upload_router.dfy`). Each handler states its reply (status, body, cookie)
  and its new store for each branch of the source it models. It is proved to
  keep `Consistent`, except for the one update path that can break it.
  `getMyApplications` is modelled twice: as written, where `populate('pet')`
  fails, and as evidently intended (see "## Findings").
- **The client** (the remaining files). Form schemas, payload builders, the
  listing wizard, the image manager, the browse page's filter pruning and
  paging, the applications page's filter and status updaters, the navigation
  components, and the auth store. Components whose state React updates are
  classes whose fields are that state. Pure render decisions are functions.

Hashing, password verification, JWT signing and verification, the mailer and
each client request's outcome are parameters of the members that use them.
The id of a newly created document and the time are not modelled: the id is a
parameter, required to be unused.

## Model

| member | source | states |
|---|---|---|
| Extract.Run | extract.py:13-48 | Without `package.json` at the root, the script fails with the script's message and touches neither output. Otherwise both outputs are truncated once, in order, and then each output holds exactly the records of the pruned walk's files routed to it, in walk order, and receives nothing but appends. |
| Extract.Walk | extract.py:24-48 | The stack-driven walk appends the records of exactly the files `Visit([], root)` lists, in that order. |
| Extract.WriteFiles | extract.py:28-48 | One directory's `filenames` loop writes exactly the records of that directory's files, in listing order. |
| Extract.WriteFile | extract.py:28-48 | One file adds one append-mode open and its record to the output its path routes to, or nothing when its path is routed nowhere. |
| Extract.Outputs.Truncate | extract.py:19-21 | Opening with `"w"` empties that output only and logs the open. |
| Extract.Outputs.AppendText | extract.py:42-48 | Opening with `"a"` and writing adds the text at the end of that output only and logs the open. |
| Extract.Outputs.constructor | extract.py:18-21 | The outputs start as given, with no open logged. |
| Extract.WriteAllIsExpected | extract.py:24-48 | Writing entries in order appends to each output exactly the concatenation of the records routed to it, and logs one append per routed entry. |
| Extract.WriteAllConcat | extract.py:24-48 | Writing two runs of entries one after the other is writing their concatenation. |
| Extract.WriteOne | extract.py:42-48 | Writing one entry appends its record to its own output only. |
| Extract.PopFrame | extract.py:24-28 | Visiting the first pending directory yields its own files first, then its pruned subdirectories, then the rest of the stack. |
| Extract.PopFrameShrinks | extract.py:24-26 | Replacing a directory by its pruned subdirectories shrinks the work left, so the walk ends. |
| Extract.VisitDirsIsPrunedFrames | extract.py:24-26 | The walk of a listing's subdirectories is the walk of the frames pushed for its pruned subdirectories. |
| Extract.PendingConcat | extract.py:24 | The files pending in two stacks are those of the first followed by those of the second. |
| Extract.VisitIsKeptWalk | extract.py:24-26 | The pruned walk is exactly the unpruned walk with every file that lies under an excluded directory name removed. |
| Extract.VisitDirsIsKeptDirs | extract.py:24-26 | The same holds for the subdirectories of a listing. |
| Extract.DirIsKept | extract.py:26 | An excluded subdirectory contributes nothing, and a kept one contributes its whole pruned walk. |
| Extract.ExcludedNeverVisited | extract.py:6-26 | No visited file lies under `.git`, `node_modules` or `__pycache__`, at any depth. |
| Extract.VisitComplete | extract.py:24-28 | Every file of the tree that lies under no excluded directory is visited. |
| Extract.FileEntriesUnder | extract.py:28-31 | A file of a directory lies directly in that directory. |
| Extract.AllFilesUnder | extract.py:24-31 | Every file of a subtree lies strictly below the subtree's path. |
| Extract.AllDirsUnder | extract.py:24-31 | Every file under a subdirectory lies at least two levels below the listing's path. |
| Extract.KeepBelowConcat | extract.py:26 | Removing files under excluded directories commutes with concatenation. |
| Extract.KeepBelowStep | extract.py:26 | Files that pass through a kept directory at one depth are filtered alike from the next depth. |
| Extract.KeepBelowNone | extract.py:26 | Files that all pass through an excluded directory are all removed. |
| Extract.KeepBelowFiles | extract.py:28 | A directory's own files are never removed by the pruning of its subdirectories. |
| Extract.KeptOnly | extract.py:26 | A file that survives pruning was in the walk and lies under no excluded name. |
| Extract.KeepsKept | extract.py:26 | A file of the walk that lies under no excluded name survives pruning. |
| Extract.Prune | extract.py:26 | The kept subdirectories have names outside `EXCLUDE_DIRS` and come from the listing. |
| Extract.Files | extract.py:24 | `filenames` holds only files. |
| Extract.SubDirs | extract.py:24 | `dirnames` holds only directories. |
| Extract.FileEntries | extract.py:28-31 | A directory yields one entry per file. |
| Extract.RouteExclusive | extract.py:34-39 | A path goes to the backend exactly when it starts with `packages/backend`, to the frontend exactly when it starts with `packages/frontend` and not with the backend prefix, and nowhere otherwise. |
| Extract.RawPrefixRoutesLegacy | extract.py:34-35 | The test is a raw string prefix, so `packages/backend-legacy/x` is routed to the backend. |
| Extract.BinaryRecordIsHeaderAndPlaceholder | extract.py:43-48 | An undecodable file still gets its header, followed exactly by the placeholder line. |
| Extract.SkippedContributeNothing | extract.py:38-39 | An output receives nothing from files none of which is routed to it. |
| Extract.RoutedRecordInOutput | extract.py:34-46 | A routed file's whole record occurs in its output's text. |
| Strings.Lower | packages/backend/models/pet_model.js:32 | Lower-casing maps each character through the ASCII lower-case mapping and keeps the length. |
| Strings.LowerIsLower | packages/backend/models/pet_model.js:32 | The result of lower-casing is lower case, and lower-casing twice is lower-casing once. |
| Strings.LowerFixesLower | packages/backend/models/pet_model.js:32 | A string is lower case exactly when lower-casing leaves it unchanged. |
| Strings.Trim | packages/backend/models/pet_model.js:21 | The trimmed string neither starts nor ends with white space and is no longer than the input. |
| Strings.TrimIsSlice | packages/backend/models/pet_model.js:21 | The trimmed string is the slice of the input left once the white space at both ends is cut off: everything before it and after it is white space. |
| Strings.TrimFixesTrimmed | packages/backend/models/pet_model.js:21 | Trimming a trimmed string changes nothing. |
| Strings.TrimIdempotent | packages/backend/models/pet_model.js:21 | Trimming twice is trimming once. |
| Strings.TrimEmptyIffBlank | packages/backend/models/pet_model.js:20-21 | A string trims to empty exactly when it is all white space. |
| Strings.Split | packages/frontend/src/components/applications/SellerApplicationCard.tsx:35 | Splitting yields at least one piece, and no piece holds the separator. |
| Strings.JoinSplit | packages/frontend/src/components/applications/SellerApplicationCard.tsx:35 | Joining the pieces of a split gives the string back. |
| Strings.SplitJoin | packages/frontend/src/components/applications/SellerApplicationCard.tsx:35 | Splitting a join of separator-free pieces gives the pieces back. |
| Strings.InitialsOfWords | packages/frontend/src/components/applications/SellerApplicationCard.tsx:35 | The initials of a name are the first characters of its space-separated words. |
| Strings.Capitalize | packages/frontend/src/components/pets/PetInfo.tsx:51 | The first character is upper-cased and the rest is kept. |
| Strings.NatToString | packages/frontend/src/components/pets/PetInfo.tsx:50 | A number's decimal text is at least one digit, and starts with `0` only for zero. |
| Strings.NatToStringRoundTrip | packages/frontend/src/components/pets/PetInfo.tsx:50 | Reading a number's decimal text back gives the number. |
| Strings.IntToStringInjective | packages/frontend/src/components/pets/PetInfo.tsx:75 | Different integers have different decimal texts. |
| Seqs.Without | packages/frontend/src/components/pets/ImageManager.tsx:67 | Filtering out a value removes every copy of it, keeps every other element, and adds nothing. |
| Seqs.WithoutAbsent | packages/frontend/src/components/pets/ImageManager.tsx:67 | Filtering out a value that is absent changes nothing. |
| Seqs.WithoutConcat | packages/frontend/src/components/pets/ListPetForm.tsx:134 | Filtering a concatenation filters each part. |
| Seqs.WithoutIdempotent | packages/frontend/src/components/pets/ListPetForm.tsx:134 | Removing the same value twice is removing it once. |
| Ids.Cast | packages/backend/controllers/petController.js:40 | A request string casts to an ObjectId exactly when it is 24 hexadecimal digits, and the ObjectId is that string in lower case. |
| Ids.CastIgnoresCase | packages/backend/controllers/petController.js:40 | Upper- and lower-case spellings of the same hexadecimal digits cast alike. |
| Ids.CastCanonical | packages/backend/controllers/petController.js:40 | A stored id casts to itself. |
| Schema.Check | packages/backend/models/pet_model.js:16-99 | One path's message list is empty exactly when its check passes, and is that path's message otherwise. |
| Schema.TrimOpt | packages/backend/models/pet_model.js:21 | `trim: true` keeps presence and trims a present value. |
| Schema.LowerOpt | packages/backend/models/pet_model.js:32 | `lowercase: true` keeps presence and lower-cases a present value. |
| EmailPattern.LabelChainChars | packages/backend/models/user_model.js:31 | A top-level label chain is made of word characters and dots and ends in a word character. |
| EmailPattern.MatchShape | packages/backend/models/user_model.js:31 | A matching address holds exactly one `@` and is trimmed. |
| EmailPattern.NoAtInDotted | packages/backend/models/user_model.js:31 | The part before `@` holds no `@`. |
| EmailPattern.DomainChars | packages/backend/models/user_model.js:31 | The domain holds no `@` and ends in a word character. |
| EmailPattern.ExampleMatches | packages/backend/models/user_model.js:31 | `ann@pets.org` matches. |
| EmailPattern.ExampleWithoutLabelFails | packages/backend/models/user_model.js:31 | `ann@local`, a host without a top-level label, does not match. |
| PetModel.ImageErrors | packages/backend/models/pet_model.js:82-86 | The images pass exactly when none is empty, and every failure carries the images message. |
| PetModel.SpeciesErrors | packages/backend/models/pet_model.js:23-33 | The species passes exactly when it is required-present and one of the five. |
| PetModel.DescriptionErrors | packages/backend/models/pet_model.js:56-61 | The description passes exactly when it is required-present and at most 1000 characters long. |
| PetModel.FeeErrors | packages/backend/models/pet_model.js:69-75 | The fee passes exactly when it is present on create and not negative. |
| PetModel.EnumErrors | packages/backend/models/pet_model.js:45-99 | An enum path passes exactly when it is absent or one of its values. |
| PetModel.MinZeroErrors | packages/backend/models/pet_model.js:39-55 | A `min: 0` path passes exactly when it is absent or not negative. |
| PetModel.EnumsAreLower | packages/backend/models/pet_model.js:28-49 | The species and gender values are lower case, so the `lowercase` setter cannot turn a valid value invalid. |
| PetModel.CreateValid | packages/backend/models/pet_model.js:16-99 | A created pet is valid, with its name trimmed and its species lower-cased. Its given paths are kept, and the fee, the flags, the images and the status take their defaults when absent. |
| PetModel.SettersFixValid | packages/backend/models/pet_model.js:16-99 | The setters leave a valid pet's values as they are. |
| PetModel.TrimOptFixes | packages/backend/models/pet_model.js:21 | Trimming an already trimmed optional path changes nothing. |
| PetModel.LowerOptFixes | packages/backend/models/pet_model.js:32 | Lower-casing an already lower-case optional path changes nothing. |
| PetModel.CreateComplete | packages/backend/models/pet_model.js:16-99 | Every valid pet is accepted again unchanged. |
| PetModel.ValidHasNoErrors | packages/backend/models/pet_model.js:16-99 | A valid pet fails no path. |
| PetModel.ErrorsEmpty | packages/backend/models/pet_model.js:16-99 | The message list is empty exactly when every path passes. |
| PetModel.CreateRejects | packages/backend/models/pet_model.js:17-99 | Each of these is refused, with its message where the schema names one: a missing or blank name, an unknown species, a negative age, height or weight, a description over 1000 characters, a negative fee, a missing city or country, and an unknown status. |
| PetModel.StateOptional | packages/backend/models/pet_model.js:76-81 | Only the city and the country of the location are required. |
| PetModel.ReplacedLocationErrors | packages/backend/models/pet_model.js:76-81 | A `location` object in an update body is refused exactly when it lacks its city or its country, since it replaces the stored location whole. |
| PetModel.UpdateCastErrors | packages/backend/models/pet_model.js:88-93 | An update body fails its cast exactly when it holds a `listed_by` that is not an ObjectId, with Mongoose's cast message for that path. |
| PetModel.UpdateValid | packages/backend/controllers/petController.js:107-113 | An accepted validated update keeps a valid pet valid, nested objects replaced whole included. |
| PetModel.UpdateChanges | packages/backend/controllers/petController.js:107-113 | An update overwrites each top-level path it names, through its setter; a `listed_by` it names is stored as the lower-case ObjectId its string casts to. Each `size`, `health_status` or `location` object it names replaces the stored one whole: an omitted state or measure is gone and an omitted flag reads as `false`. Everything else is kept. |
| PetModel.EmptyUpdate | packages/backend/controllers/petController.js:107-113 | An update naming no path leaves the pet as it is. |
| PetModel.ReplacedLocationDropsState | packages/backend/controllers/petController.js:107-113 | A location of only a city and a country replaces the stored one, and the stored state is gone. |
| PetModel.UpdateRejects | packages/backend/controllers/petController.js:107-113 | An update whose `listed_by` is not an ObjectId is refused with the cast error alone. An update is refused as a whole when it names an unknown status, an empty description or a negative fee, or a location without its city or its country, with the `required` message of the missing part. |
| UserModel.NormalEmail | packages/backend/models/user_model.js:29-30 | The stored email is lower case and trimmed. |
| UserModel.LowerTrimmed | packages/backend/models/user_model.js:29-30 | Lower-casing and then trimming yields a lower-case string. |
| UserModel.TrimKeepsLower | packages/backend/models/user_model.js:29-30 | Trimming keeps a string lower case. |
| UserModel.TrimAddress | packages/backend/models/user_model.js:65-71 | Every part of the stored address is trimmed. |
| UserModel.EmailErrors | packages/backend/models/user_model.js:24-32 | The email passes exactly when it is required-present and matches the pattern. |
| UserModel.ProfileTypeErrors | packages/backend/models/user_model.js:49-58 | The profile type passes exactly when it is required-present and `adopter` or `seller`. |
| UserModel.Errors | packages/backend/models/user_model.js:17-81 | The message list is empty exactly when every path passes. |
| UserModel.WithoutPassword | packages/backend/models/user_model.js:37 | `select('-password')` keeps every path but the hash, and the profile with the hash gives the user back. |
| UserModel.SummaryOf | packages/backend/controllers/authController.js:67-76 | The auth reply's user holds the id, name, email and profile type. |
| UserModel.PublicProfileOf | packages/backend/controllers/userController.js:33-48 | The public projection holds the six selected paths and the id. |
| UserModel.CreateValid | packages/backend/models/user_model.js:17-81 | A created user is valid, with its name trimmed and its email normalised. Its given password and profile type are kept, and the picture and lists take their defaults. |
| UserModel.AddressFixes | packages/backend/models/user_model.js:65-71 | Trimming an already trimmed address changes nothing. |
| UserModel.TrimOptFixes | packages/backend/models/user_model.js:22 | Trimming an already trimmed optional path changes nothing. |
| UserModel.NormalEmailFixes | packages/backend/models/user_model.js:29-31 | A valid lower-case email is its own normal form. |
| UserModel.SettersFixValid | packages/backend/models/user_model.js:17-81 | The setters leave a valid user's values as they are. |
| UserModel.ValidHasNoErrors | packages/backend/models/user_model.js:17-81 | A valid user fails no path. |
| UserModel.CreateComplete | packages/backend/models/user_model.js:17-81 | Every valid user is accepted again unchanged. |
| UserModel.BuildToFields | packages/backend/models/user_model.js:17-81 | A stored user's paths build the same user again. |
| UserModel.CreateRejects | packages/backend/models/user_model.js:24-76 | Each of these is refused, with its message: a missing email, an email not matching the pattern, a missing password, an unknown or missing profile type, and a bio over 500 characters. |
| UserModel.UpdateValid | packages/backend/models/user_model.js:17-81 | An accepted update keeps a valid user valid and changes only the paths it names. |
| UserModel.ProjectionsHidePassword | packages/backend/models/user_model.js:37 | No projection depends on the hash. |
| ApplicationModel.Required | packages/backend/models/application_model.js:6-9 | A required path fails exactly when its value is missing. |
| ApplicationModel.PetErrors | packages/backend/models/application_model.js:7 | The pet path passes exactly when it is present and casts to an ObjectId. |
| ApplicationModel.Errors | packages/backend/models/application_model.js:6-10 | The error list is empty exactly when every path passes. |
| ApplicationModel.PathMessages | packages/backend/models/application_model.js:6-10 | A validation error lists one `path: message` per failing path, in order. |
| ApplicationModel.CreateValid | packages/backend/models/application_model.js:6-10 | A saved application is valid, holds the given values, and is `pending` when no status was given. |
| ApplicationModel.CreateRejects | packages/backend/models/application_model.js:6-10 | A missing path, an uncastable pet id or an unknown status is refused. |
| ApplicationModel.MissingPathMessages | packages/backend/models/application_model.js:6-9 | Each missing path is reported under its own name with the `required` message. |
| ApplicationModel.CreateComplete | packages/backend/models/application_model.js:6-10 | Every valid application is accepted again as it is. |
| Database.PushListing | packages/backend/controllers/petController.js:71 | `$push` appends the pet to the owner's listings and changes no other user. |
| Database.PullListing | packages/backend/controllers/petController.js:143 | `$pull` removes every copy of the pet from the owner's listings and changes no other user. |
| Database.Select | packages/backend/controllers/petController.js:23 | `find` returns each id of the documents passing the filter, once. |
| Database.FindByEmail | packages/backend/controllers/authController.js:33 | `findOne({ email })` finds a user holding the normalised email exactly when one exists. |
| PetController.OwnerOf | packages/backend/controllers/petController.js:23 | Populating `listed_by` finds the owner's name exactly when the owner exists. |
| PetController.ContactOf | packages/backend/controllers/petController.js:40 | Populating `listed_by` finds the owner's contact details exactly when the owner exists. |
| PetController.GetAllPets | packages/backend/controllers/petController.js:17-30 | The reply is 200 with every available pet, each once, with its owner, and with no other pet. |
| PetController.GetPetById | packages/backend/controllers/petController.js:37-52 | An id that is no ObjectId gets 500, an unknown id gets 404, and otherwise the reply is 200 with the pet and its owner's contact. |
| PetController.WithOwner | packages/backend/controllers/petController.js:67 | The stored pet is owned by the requester, whatever the body says. |
| PetController.CreatePet | packages/backend/controllers/petController.js:58-85 | A non-seller gets 403 and nothing changes. A body that fails validation gets 400 with the joined messages and nothing changes. Otherwise the requester's pet is stored, pushed onto the requester's listings, and returned with 201. The store stays consistent. |
| PetController.InsertListing | packages/backend/controllers/petController.js:68-71 | The save and the push store the pet and add it to its owner's listings, keeping the store consistent. |
| PetController.CreateKeepsListings | packages/backend/controllers/petController.js:68-71 | The push that follows a create keeps emails unique and listings in step. |
| PetController.UpdatePet | packages/backend/controllers/petController.js:91-119 | An id that is no ObjectId gets 500 and an unknown id 404. A non-owner gets 403. An update that fails its cast, such as a `listed_by` that is not an ObjectId, or fails validation gets 500 and nothing changes. Otherwise the validated update is stored and returned with 200. Nothing else changes, and the store stays consistent unless the body moves the pet to another owner. |
| PetController.ReplaceListing | packages/backend/controllers/petController.js:107-113 | Replacing a pet by one with the same owner keeps the store consistent. |
| PetController.ReassignedOwnerBreaksListings | packages/backend/controllers/petController.js:107-113 | A body that names another stored owner leaves the pet out of the new owner's listings. |
| PetController.DeletePet | packages/backend/controllers/petController.js:125-151 | An id that is no ObjectId gets 500 and an unknown id 404. A non-owner gets 403. Otherwise the pet is removed and pulled from its owner's listings with 200. The store stays consistent. |
| PetController.DeleteKeepsListings | packages/backend/controllers/petController.js:140-143 | Removing a pet and pulling it from its owner keeps listings in step and emails unique. |
| Tokens.GenerateToken | packages/backend/utils/generateToken.js:24-54 | Without a secret the generator throws. Otherwise the token signs the id and profile type for one day. |
| Http.TokenCookie | packages/backend/controllers/authController.js:58-63 | The session cookie is `httpOnly`, lasts one day, holds the token, and is `secure` only in production. |
| AuthController.NewUser | packages/backend/controllers/authController.js:42-51 | The created document holds the hash, the lower-cased profile type and the address from the body, and nothing else. |
| AuthController.Register | packages/backend/controllers/authController.js:20-84 | A bad profile type gets 400 and a taken email 409. A failed hash or validation or a missing secret gets 500. Otherwise the new user is stored and answered with 201, the summary and the session cookie. The store stays consistent. |
| AuthController.InsertUser | packages/backend/controllers/authController.js:44-51 | Storing a new user with a fresh id and email and no listings keeps the store consistent. |
| AuthController.RegisterKeepsConsistent | packages/backend/controllers/authController.js:33-51 | Such a user keeps emails unique and listings in step. |
| AuthController.StoredUserShape | packages/backend/controllers/authController.js:42-51 | The stored user keeps the hash and never the plain password once hashing changes it, and its profile type is a lower-case schema value. |
| AuthController.LoginOutcome | packages/backend/controllers/authController.js:103-136 | A matching password with a secret gets 200 with the token and cookie. A wrong or missing password gets 401. Otherwise the reply is 500. |
| AuthController.Login | packages/backend/controllers/authController.js:92-144 | An unknown email gets 401, and a known one gets that user's outcome. The reply is 200, 401 or 500, and nothing changes. |
| AuthController.UniformFailure | packages/backend/controllers/authController.js:103-113 | An unknown email and a wrong password get the same answer. |
| AuthController.SameSessionCookie | packages/backend/controllers/authController.js:119-124 | Login sets the same one-day `httpOnly` cookie as registration. |
| AuthController.Logout | packages/backend/controllers/authController.js:152-157 | Logout always clears the cookie and answers 200. |
| UserController.GetAllUsers | packages/backend/controllers/userController.js:15-27 | The reply is 200 with every user, each once, as the three selected paths. |
| UserController.GetUserById | packages/backend/controllers/userController.js:33-48 | An id that is no ObjectId gets 500, an unknown id 404, and otherwise the public projection. |
| UserController.GetMyProfile | packages/backend/controllers/userController.js:54-60 | The reply is 200, holding the stored profile without the hash, or `null`. |
| UserController.Whitelist | packages/backend/controllers/userController.js:73-81 | The update holds the four whitelisted paths and nothing else. |
| UserController.UpdateUserProfile | packages/backend/controllers/userController.js:67-109 | Failing validation gets 400 with the joined messages, and an unknown requester 404. Otherwise the updated profile is stored and returned. The store stays consistent. |
| UserController.WhitelistKeepsCredentials | packages/backend/controllers/userController.js:73-90 | Whatever the body holds, the email, hash, profile type and lists stay, and the named paths are set through their setters. |
| UserController.ProfileUpdateKeepsConsistent | packages/backend/controllers/userController.js:86-90 | Replacing a user by one with the same email and listings keeps the store consistent. |
| UserController.NextProfileType | packages/backend/controllers/userController.js:123-126 | The toggle yields the other schema value: `adopter` becomes `seller` and anything else `adopter`. |
| UserController.SwitchTwiceRestores | packages/backend/controllers/userController.js:123-126 | Switching twice restores a schema value. |
| UserController.SwitchProfileType | packages/backend/controllers/userController.js:114-143 | An unknown requester gets 404. Otherwise the profile type is toggled and saved, and the new summary is answered with 200. The store stays consistent. |
| UserController.SwitchValidSucceeds | packages/backend/controllers/userController.js:123-128 | A valid stored user always passes the save after the toggle. |
| ApplicationController.Submission | packages/backend/controllers/applicationController.js:8-17 | The applicant is the requester, whatever the body says, and the other paths come from the body. |
| ApplicationController.CreateApplication | packages/backend/controllers/applicationController.js:6-25 | A failing submission gets 500 with the validation message and nothing is stored. Otherwise the application is stored and answered with 201. The store stays consistent. |
| ApplicationController.SubmissionAccepted | packages/backend/controllers/applicationController.js:8-20 | A complete submission naming a castable pet id is saved as pending, by the requester. |
| ApplicationController.SubmissionRefused | packages/backend/controllers/applicationController.js:8-24 | A submission missing the pet, the intent or the plan is refused. |
| ApplicationController.PetOf | packages/backend/controllers/applicationController.js:30 | With a registered model behind the ref, populating `pet` finds the pet exactly when it exists. |
| ApplicationController.PetRefNamesNoModel | packages/backend/models/application_model.js:7 | The `pet` path's ref `'Pet'` is none of the registered model names, and differs from the pet model's `'pet'` only in case. |
| ApplicationController.FindByApplicant | packages/backend/controllers/applicationController.js:28-35 | Without applications the reply is 200 with an empty list. With some applications and an unregistered ref it is 500 with the fetch-failed message and the missing-schema error. Otherwise it is 200 with exactly the requester's applications, each once, with its pet. |
| ApplicationController.GetMyApplications | packages/backend/controllers/applicationController.js:28-35 | As written: a requester without applications gets 200 with an empty list, and any other requester 500 with the fetch-failed message and the missing-schema error for `"Pet"`. |
| ApplicationController.GetMyApplicationsFixed | packages/backend/controllers/applicationController.js:28-35 | As intended, with the ref naming the pet model: 200 with exactly the requester's applications, each once, each with its pet or `null`. |
| ContactController.SendEmail | packages/backend/controllers/contactController.js:6-31 | A missing field gets 400 before any lookup. A recipient id that is no ObjectId makes `findById` throw, and the catch answers 500 with no mail. An unknown recipient gets 404 with no mail. Otherwise the mail goes to the recipient's stored email with the sender's name and email and the unchanged subject and message, and the reply is 200 when the mailer succeeds and 500 when it fails. |
| ContactController.MailGoesToStoredUser | packages/backend/controllers/contactController.js:17-23 | The handler mails only a stored user, and never alters the subject or the message. |
| AuthMiddleware.IsLoggedIn | packages/backend/middlewares/isLoggedIn.js:18-79 | No token gets 401 and no secret 500. A token that fails verification, or names a user that is gone, gets 401. Otherwise the request proceeds with the stored user without the hash. |
| AuthMiddleware.BearerWins | packages/backend/middlewares/isLoggedIn.js:25-28 | `Bearer <t>` yields `t`, whatever the cookie holds. |
| AuthMiddleware.CookieOnlyWithoutBearer | packages/backend/middlewares/isLoggedIn.js:25-33 | With a Bearer header the cookie is never read. Without one, the token is the cookie when it is set. |
| AuthMiddleware.BareBearerDenied | packages/backend/middlewares/isLoggedIn.js:25-39 | A bare `Bearer` header gives no token even when there is a cookie, so the request gets 401. |
| App.Cors | packages/backend/app.js:48-57 | An origin is allowed exactly when it is missing or equals `FRONTEND_URL`. Any other origin is rejected with the policy-violation error, from which the refused origin can be read back. |
| App.UnsetFrontendAdmitsOnlyNoOrigin | packages/backend/app.js:48-55 | With `FRONTEND_URL` unset, only requests without an origin pass. |
| App.Health | packages/backend/app.js:84-87 | The health route answers 200 with its message. |
| App.NotFound | packages/backend/app.js:115-118 | An unmatched request gets 404 with the not-found message, from which its URL can be read back. |
| App.ErrorHandler | packages/backend/app.js:122-127 | Every error gets the same 500 answer. |
| App.RejectedOriginIs500 | packages/backend/app.js:56-127 | A refused origin ends in the global handler's 500. |
| UploadRouter.Urls | packages/backend/routes/uploadRouter.js:29-33 | Each file gets the URL of its stored name, at the same position. |
| UploadRouter.Upload | packages/backend/routes/uploadRouter.js:18-46 | Multer's refusal ends in the global handler, and no files gets 400. Otherwise the reply is 201 with one URL per file. |
| UploadRouter.UrlsRoundTrip | packages/backend/routes/uploadRouter.js:29-33 | Each URL gives back the stored name of its file. |
| UploadRouter.UrlsDistinct | packages/backend/routes/uploadRouter.js:29-33 | Files stored under different names get different URLs. |
| ApplicationCards.StatusBadge | packages/frontend/src/components/applications/SellerApplicationCard.tsx:22-32 | `approved` gets the default badge, `rejected` the destructive one, and anything else the secondary one. |
| ApplicationCards.StatusesLookDifferent | packages/frontend/src/components/applications/ApplicationCard.tsx:16-26 | The three statuses get three different badges. |
| ApplicationCards.SellerCardOf | packages/frontend/src/components/applications/SellerApplicationCard.tsx:34-96 | The seller's card shows the initials, badge and email. It shows the phone only when there is one, links the applicant and pet name to the contact page, and passes the application's id to both buttons. |
| ApplicationCards.AvatarImage | packages/frontend/src/components/applications/ApplicationCard.tsx:33 | The first image is shown when there is one, and the placeholder otherwise. |
| ApplicationCards.AdopterCardOf | packages/frontend/src/components/applications/ApplicationCard.tsx:28-45 | The adopter's card shows the image, the badge, the pet's first letter as fallback, the pet's name and its owner. |
| ApplicationCards.InitialsOfApplicant | packages/frontend/src/components/applications/SellerApplicationCard.tsx:35 | A name of single-spaced words has one initial per word. |
| ViewApplications.WithStatus | packages/frontend/src/pages/ViewApplicationsPage.tsx:70 | The filter keeps only applications with the status, taken from the list. |
| ViewApplications.WithStatusComplete | packages/frontend/src/pages/ViewApplicationsPage.tsx:70 | Every application with the status is kept. |
| ViewApplications.WithStatusConcat | packages/frontend/src/pages/ViewApplicationsPage.tsx:70 | The filter keeps the list's order. |
| ViewApplications.WithStatusKeepsMatching | packages/frontend/src/pages/ViewApplicationsPage.tsx:70 | A list that already has the status is kept whole. |
| ViewApplications.FilteredSpec | packages/frontend/src/pages/ViewApplicationsPage.tsx:66-71 | `all` shows the whole list, and another filter exactly the applications with that status. |
| ViewApplications.Approve | packages/frontend/src/pages/ViewApplicationsPage.tsx:80-86 | The approval updater maps every application in place. |
| ViewApplications.SetStatus | packages/frontend/src/pages/ViewApplicationsPage.tsx:88-90 | The rejection updater changes only the target. |
| ViewApplications.ApproveSpec | packages/frontend/src/pages/ViewApplicationsPage.tsx:80-86 | After an approval nothing is pending, and every other field stays. Settled applications other than the target stay as they were. Exactly the target and the already approved are approved. |
| ViewApplications.RejectSpec | packages/frontend/src/pages/ViewApplicationsPage.tsx:88-90 | A rejection changes only the target, rejecting twice is rejecting once, and an unknown id changes nothing. |
| ViewApplications.ApplicationsPage.constructor | packages/frontend/src/pages/ViewApplicationsPage.tsx:25-29 | The page starts loading, with no pet, no applications and the `all` filter. |
| ViewApplications.ApplicationsPage.FetchData | packages/frontend/src/pages/ViewApplicationsPage.tsx:32-64 | A missing pet id and a failed load each set their error. A pet that the user does not own sets the authorisation error and shows nothing. Otherwise the pet and its applications are shown. Loading ends in every case. |
| ViewApplications.ApplicationsPage.SetFilter | packages/frontend/src/pages/ViewApplicationsPage.tsx:29 | Choosing a filter changes only the filter. |
| ViewApplications.ApplicationsPage.HandleStatusUpdate | packages/frontend/src/pages/ViewApplicationsPage.tsx:73-102 | On failure nothing changes and the error toast shows. On success the list is updated by the matching updater, an approval marks the pet adopted, and the toast names the new status. |
| Browse.Put | packages/frontend/src/pages/BrowsePetsPage.tsx:81 | Spreading a key in keeps every existing key in its place and adds a new one last. |
| Browse.PutLookup | packages/frontend/src/pages/BrowsePetsPage.tsx:81 | The updated key reads the new value, and every other key reads as before. |
| Browse.PutDistinct | packages/frontend/src/pages/BrowsePetsPage.tsx:81 | An update keeps the keys distinct. |
| Browse.Active | packages/frontend/src/pages/BrowsePetsPage.tsx:56-61 | The sent filters are kept entries of the page's filters. |
| Browse.ActiveExact | packages/frontend/src/pages/BrowsePetsPage.tsx:57-59 | An entry is sent exactly when its value is truthy and not `all`. |
| Browse.InitialFiltersInactive | packages/frontend/src/pages/BrowsePetsPage.tsx:41-46 | The initial filters send no filter at all. |
| Browse.PruneFilters | packages/frontend/src/pages/BrowsePetsPage.tsx:56-61 | The `forEach` copies exactly the active entries, in order. |
| Browse.PreviousPage | packages/frontend/src/pages/BrowsePetsPage.tsx:201 | Previous never goes below 1 and goes back one page from any later page. |
| Browse.NextPage | packages/frontend/src/pages/BrowsePetsPage.tsx:212 | Next goes on one page while there is a later page, and otherwise stays on (or drops to) the last page, as `Math.min(totalPages, p + 1)` does. |
| Browse.PagesStayInRange | packages/frontend/src/pages/BrowsePetsPage.tsx:201-212 | A page in range stays in range under both buttons. |
| Browse.PageLinks | packages/frontend/src/pages/BrowsePetsPage.tsx:197-202 | Links are shown only for more than one page, numbered from 1 to the last page. |
| Browse.ExactlyOneActive | packages/frontend/src/pages/BrowsePetsPage.tsx:202-206 | Exactly one link is active for a page in range, and none otherwise. |
| Browse.BrowsePage.constructor | packages/frontend/src/pages/BrowsePetsPage.tsx:34-46 | The page starts loading on page 1 of 1 with the initial filters. |
| Browse.BrowsePage.FetchPets | packages/frontend/src/pages/BrowsePetsPage.tsx:51-73 | The query holds the active filters, the page and nine per page. The page count is taken from the answer, or the error is set. Loading ends. |
| Browse.BrowsePage.HandleFilterChange | packages/frontend/src/pages/BrowsePetsPage.tsx:79-82 | One key is updated and the page goes back to 1. |
| Browse.BrowsePage.HandleSearchChange | packages/frontend/src/pages/BrowsePetsPage.tsx:84-94 | The two search keys are updated and the page goes back to 1. |
| Browse.BrowsePage.Previous | packages/frontend/src/pages/BrowsePetsPage.tsx:201 | Only the page changes, by the previous clamp. |
| Browse.BrowsePage.Next | packages/frontend/src/pages/BrowsePetsPage.tsx:212 | Only the page changes, by the next clamp. |
| Browse.SearchChangeTouchesOnlySearch | packages/frontend/src/pages/BrowsePetsPage.tsx:87-91 | A search change sets the two search keys and leaves every other filter as it was. |
| Zod.MinLength | packages/frontend/src/components/pets/ListPetForm.tsx:22 | `min(n)` passes exactly when the string has n characters, and otherwise reports its message. |
| ListPetForm.FormValidIffFields | packages/frontend/src/components/pets/ListPetForm.tsx:21-38 | The schema holds exactly when every field's rule holds. |
| ListPetForm.DefaultsInvalid | packages/frontend/src/components/pets/ListPetForm.tsx:52-69 | The defaults fail the name, species, description, city, country and images rules, and pass the fee and status rules. |
| ListPetForm.StepFields | packages/frontend/src/components/pets/ListPetForm.tsx:181-186 | Step 1 checks name, description and images, step 2 the species, and any other step nothing. |
| ListPetForm.StepChecks | packages/frontend/src/components/pets/ListPetForm.tsx:180-188 | Each step's check holds exactly when its fields' rules hold. |
| ListPetForm.FormValidPassesSteps | packages/frontend/src/components/pets/ListPetForm.tsx:180-188 | A form passing the whole schema passes both steps' checks. |
| ListPetForm.ButtonsPerStep | packages/frontend/src/components/pets/ListPetForm.tsx:500-516 | On each step exactly one of Continue and Save shows, and Back shows everywhere but the first step. |
| ListPetForm.SwitchStatus | packages/frontend/src/components/pets/ListPetForm.tsx:489 | The switch sets `available` when on and `pending` when off. |
| ListPetForm.SwitchRoundTrip | packages/frontend/src/components/pets/ListPetForm.tsx:489 | The switch shows what it sets, and sets back an available or pending status it shows. |
| ListPetForm.PayloadRoundTrip | packages/frontend/src/components/pets/ListPetForm.tsx:142-165 | Nesting the payload loses and invents nothing. |
| ListPetForm.AfterSubmit | packages/frontend/src/components/pets/ListPetForm.tsx:167-177 | Success opens the new pet's page. A failure stays on the page with the server's message, or with the default one when the server gave none. |
| ListPetForm.UploadThenDelete | packages/frontend/src/components/pets/ListPetForm.tsx:127-137 | Removing a URL that was not there before an upload removes it from the upload only. |
| ListPetForm.Wizard.constructor | packages/frontend/src/components/pets/ListPetForm.tsx:52-69 | The wizard starts on step 1 with no images and the defaults. |
| ListPetForm.Wizard.HandleImagesUploaded | packages/frontend/src/components/pets/ListPetForm.tsx:127-131 | The new URLs go after the existing ones, mirrored into the form. |
| ListPetForm.Wizard.HandleDeleteImage | packages/frontend/src/components/pets/ListPetForm.tsx:133-137 | Every copy of the URL goes, mirrored into the form. |
| ListPetForm.Wizard.HandleNextStep | packages/frontend/src/components/pets/ListPetForm.tsx:180-195 | A passing step moves on one step, and a failing step stays with the error toast. |
| ListPetForm.Wizard.Back | packages/frontend/src/components/pets/ListPetForm.tsx:500-501 | Back moves one step back. |
| ListPetForm.Wizard.SetListingActive | packages/frontend/src/components/pets/ListPetForm.tsx:489 | The switch sets the form's status. |
| ImageManager.ImageFiles | packages/frontend/src/components/pets/ImageManager.tsx:62 | The type filter keeps exactly the image files, from the drop. |
| ImageManager.Accepted | packages/frontend/src/components/pets/ImageManager.tsx:60-64 | At most five images are accepted: all of them when there are at most five, and none otherwise. |
| ImageManager.FewImagesAllAccepted | packages/frontend/src/components/pets/ImageManager.tsx:60-64 | A drop of at most five images is accepted whole, in order. |
| ImageManager.Manager.constructor | packages/frontend/src/components/pets/ImageManager.tsx:18-19 | The widget starts with the initial images, not uploading. |
| ImageManager.Manager.OnDrop | packages/frontend/src/components/pets/ImageManager.tsx:24-57 | A successful upload appends the new URLs and notifies the parent. A failure changes nothing. Uploading ends either way. |
| ImageManager.Manager.RemoveImage | packages/frontend/src/components/pets/ImageManager.tsx:66-70 | Every copy of the URL goes, and the parent gets the new list. |
| EditPetForm.DefaultsFromStored | packages/frontend/src/components/pets/EditPetForm.tsx:37-44 | The form starts from the stored values. A missing description is empty, missing images none, and missing flags off. |
| EditPetForm.Issues | packages/frontend/src/components/pets/EditPetForm.tsx:21 | The description message is raised exactly for a description under ten characters. |
| EditPetForm.EditValidIff | packages/frontend/src/components/pets/EditPetForm.tsx:20-27 | The schema asks for a ten-character description, a positive age if any, and a known status. |
| EditPetForm.SoundPetSavesUnchanged | packages/frontend/src/components/pets/EditPetForm.tsx:20-44 | A stored pet with a long enough description, a positive or missing age and a known status can be saved unchanged. |
| EditPetForm.PayloadMirrorsFlags | packages/frontend/src/components/pets/EditPetForm.tsx:51-57 | The payload carries the form's data unchanged, and its `health_status` mirrors the flags. |
| EditPetForm.AfterSave | packages/frontend/src/components/pets/EditPetForm.tsx:59-66 | The page goes to the listings whether the update succeeded or not, with the matching toast. |
| EditPetForm.AfterDelete | packages/frontend/src/components/pets/EditPetForm.tsx:72-82 | The page goes to the listings only when the deletion succeeded. |
| Stepper.Views | packages/frontend/src/components/pets/Stepper.tsx:15-48 | There is one view per step, in order. Steps before the current one are done, the current one is active, every step but the last has a connector, and done steps show a check. |
| Stepper.NeverBoth | packages/frontend/src/components/pets/Stepper.tsx:17-42 | No step is both done and current, and the circle says which a step is. |
| Stepper.ExactlyOneActive | packages/frontend/src/components/pets/Stepper.tsx:17-18 | Within range exactly one step is current, and those before it are done. Outside it none is current. |
| PetInfo.IconOf | packages/frontend/src/components/pets/PetInfo.tsx:23-37 | Each known species gets its icon, whatever its capitalisation, and anything else the paw print. |
| PetInfo.IconIgnoresCase | packages/frontend/src/components/pets/PetInfo.tsx:37 | Names that lower-case alike get the same icon. |
| PetInfo.AgeLabelFaithful | packages/frontend/src/components/pets/PetInfo.tsx:50 | A missing or zero age reads N/A, and different given ages read differently. |
| PetInfo.GenderLabel | packages/frontend/src/components/pets/PetInfo.tsx:51 | The gender is shown capitalised, or N/A when missing or empty. |
| PetInfo.MeasureLabel | packages/frontend/src/components/pets/PetInfo.tsx:52-53 | A measure is shown exactly when it is truthy, as its decimal text, a space and the unit (`cm` for the height, `kg` for the weight). |
| PetInfo.MeasureLabelInjective | packages/frontend/src/components/pets/PetInfo.tsx:52-53 | Two given measures in the same unit read alike only when they are equal. |
| PetInfo.FeeLabel | packages/frontend/src/components/pets/PetInfo.tsx:75 | The fee reads as a dollar sign followed by the fee's decimal text. |
| PetInfo.FeeLabelReadsBack | packages/frontend/src/components/pets/PetInfo.tsx:75 | For a fee the schema accepts, the digits after the dollar sign denote exactly that fee. |
| PetInfo.StatusVariant | packages/frontend/src/components/pets/PetInfo.tsx:82 | Only an available pet gets the default badge. |
| PetCard.ClickOf | packages/frontend/src/components/browse/PetCard.tsx:43-50 | A logged-in user opens the pet's page, and a guest is sent to log in with a toast. |
| PetCard.GuestsNeverSeeDetails | packages/frontend/src/components/browse/PetCard.tsx:43-50 | A guest never reaches a pet's page. |
| PetCard.AgeUnit | packages/frontend/src/components/browse/PetCard.tsx:77 | The unit is singular exactly for an age of one. |
| PetCard.AgeLine | packages/frontend/src/components/browse/PetCard.tsx:77 | The age line starts with the age's decimal text when there is an age, and always ends with the unit and " old"; a missing age leaves " years old". |
| PetCard.AgeLineExamples | packages/frontend/src/components/browse/PetCard.tsx:77 | One year reads in the singular, and a missing age leaves only the plural unit. |
| PetCard.Tags | packages/frontend/src/components/browse/PetCard.tsx:85-99 | The tags show the available or pending status and the vaccination, each at most once and never both statuses. |
| PetCard.AdoptedHasNoStatusTag | packages/frontend/src/components/browse/PetCard.tsx:85-99 | An adopted pet shows no status tag. |
| AuthStore.Store.constructor | packages/frontend/src/store/authStore.ts:25-35 | The store starts with the user saved under `auth-storage` when there is one, and without a user otherwise. |
| AuthStore.Store.SetUser | packages/frontend/src/store/authStore.ts:29 | `setUser` replaces the user, and the new user is saved. |
| AuthStore.Store.Logout | packages/frontend/src/store/authStore.ts:30 | `logout` clears the user, and the cleared user is saved. |
| ProfileSwitcher.Destination | packages/frontend/src/components/layout/ProfileSwitcher.tsx:45-54 | An adopter lands on the browse page and a seller on the listings. |
| ProfileSwitcher.SwitchLandsOnChoice | packages/frontend/src/components/layout/ProfileSwitcher.tsx:32-54 | The server's toggle lands the user on the page of the profile chosen. |
| ProfileSwitcher.Switcher.constructor | packages/frontend/src/components/layout/ProfileSwitcher.tsx:30 | The dialog starts closed, bound to the store. |
| ProfileSwitcher.Switcher.HandleProfileChange | packages/frontend/src/components/layout/ProfileSwitcher.tsx:32-62 | Choosing the current profile only closes the dialog. A successful switch stores the new user, closes the dialog and navigates. A failure changes nothing but the toast. |
| ProfileSwitcher.Switcher.OnValueChange | packages/frontend/src/components/layout/ProfileSwitcher.tsx:83-85 | Deselecting does nothing, and choosing the current profile calls no server. |
| UserNav.MenuOf | packages/frontend/src/components/layout/UserNav.tsx:21-85 | Without a named user nothing renders. Otherwise the menu shows the initials, name and email, and runs from settings to logout, with the adopter section exactly for an adopter and the seller section exactly for a seller. |
| UserNav.NeverBothSections | packages/frontend/src/components/layout/UserNav.tsx:54-79 | The two profile sections never appear together. |
| UserNav.HandleLogout | packages/frontend/src/components/layout/UserNav.tsx:15-19 | Logout clears the store and goes home with a toast. |
| Nav.Items | packages/frontend/src/components/Header/Nav/index.tsx:15-39 | There are four items: the three base items, then logout for a user or login for a guest. |
| Nav.HrefsDistinct | packages/frontend/src/components/Header/Nav/index.tsx:15-39 | The routes are distinct. |
| Nav.OnlyLogoutActs | packages/frontend/src/components/Header/Nav/index.tsx:27-39 | Only the last item runs an action, and only for a user. |
| Nav.AtMostOneActive | packages/frontend/src/components/Header/Nav/index.tsx:56-61 | At most one item is highlighted. |
| Nav.Panel.constructor | packages/frontend/src/components/Header/Nav/index.tsx:25 | The highlight starts on the current route. |
| Nav.Panel.MouseEnter | packages/frontend/src/components/Header/Link/index.tsx:32 | Entering an item highlights it. |
| Nav.Panel.MouseLeave | packages/frontend/src/components/Header/Nav/index.tsx:51 | Leaving the list highlights the current route again. |
| AuthForm.EmailIssues | packages/frontend/src/components/auth/AuthForm.tsx:26 | The email passes exactly when it is an email. |
| AuthForm.ProfileTypeIssues | packages/frontend/src/components/auth/AuthForm.tsx:37 | The profile type passes exactly when it is `adopter` or `seller`, and a missing one gets the required message. |
| AuthForm.Issues | packages/frontend/src/components/auth/AuthForm.tsx:59 | The register form uses the register schema and the login form the login schema. |
| AuthForm.LoginAccepts | packages/frontend/src/components/auth/AuthForm.tsx:25-28 | Login asks for an email and a password, and nothing else. |
| AuthForm.RegisterAccepts | packages/frontend/src/components/auth/AuthForm.tsx:31-69 | Register asks for a two-character name, an email, an eight-character password and a profile type, and the default profile type passes. |
| AuthForm.RegisterImpliesLogin | packages/frontend/src/components/auth/AuthForm.tsx:25-38 | A registrable form could log in. |
| AuthForm.SubmittedOf | packages/frontend/src/components/auth/AuthForm.tsx:59-181 | The handler is called exactly for a passing form, with only the schema's keys. |
| AuthForm.ViewOf | packages/frontend/src/components/auth/AuthForm.tsx:73-145 | The name and profile-type fields show only for register, the footer links to the other form, and the button is disabled while submitting. |
| AuthForm.FooterLeadsToOther | packages/frontend/src/components/auth/AuthForm.tsx:73-79 | The footer always leads to the other form. |
| ContactPage.DefaultSubject | packages/frontend/src/pages/ContactUserPage.tsx:43 | The subject proposes the pet's name, or `your listing` without one. |
| ContactPage.DefaultSubjectAccepted | packages/frontend/src/pages/ContactUserPage.tsx:19-43 | The proposed subject passes the schema. |
| ContactPage.IssuesIff | packages/frontend/src/pages/ContactUserPage.tsx:19-22 | The form passes exactly with a three-character subject and a ten-character message, and each message is raised exactly for its own field. |
| ContactPage.GuardOf | packages/frontend/src/pages/ContactUserPage.tsx:33-69 | Without a recipient the page shows the toast and goes back, and otherwise it renders for the recipient. |
| ContactPage.ValidFormPassesPresenceCheck | packages/frontend/src/pages/ContactUserPage.tsx:50-54 | A passing form with a recipient always gets past the server's 400 check. |
| ContactPage.AfterSendOf | packages/frontend/src/pages/ContactUserPage.tsx:56-66 | The page goes back only on success, with the matching toast. |
| ApplyPage.IssuesIff | packages/frontend/src/pages/ApplyForAdoptionPage.tsx:21-24 | The form passes exactly with a ten-character intent and a five-character plan, and each message is raised exactly for its own field. |
| ApplyPage.Submission | packages/frontend/src/pages/ApplyForAdoptionPage.tsx:51-54 | Nothing is sent without a pet id, and otherwise the pet id with the form. |
| ApplyPage.ValidFormIsAccepted | packages/frontend/src/pages/ApplyForAdoptionPage.tsx:51-54 | A passing form for a castable pet id is saved by the server as a pending application of the requester. |
| ApplyPage.AfterSubmitOf | packages/frontend/src/pages/ApplyForAdoptionPage.tsx:56-61 | Success goes to the applications page, and a failure only shows a toast. |
| ApplyPage.Page.constructor | packages/frontend/src/pages/ApplyForAdoptionPage.tsx:42 | The page starts without a pet. |
| ApplyPage.Page.LoadPet | packages/frontend/src/pages/ApplyForAdoptionPage.tsx:42-72 | Without a pet id nothing is fetched. Otherwise the pet is the fetched one, and the spinner stays when the fetch fails. |

## Left out

- JavaScript numbers are modelled as unbounded integers. `NaN`, fractions and string-to-number coercion are not modelled.
- zod's email check and Mongoose's email regex are modelled differently. The client's check is a parameter (`isEmail`). The server's pattern is written out in `EmailPattern` for the ASCII word characters.
- `ListPetForm.FieldValid`: zod's default messages for the wizard's fields are not modelled, only whether each rule holds.
- `toLowerCase` and `trim` are modelled on ASCII letters and ASCII white space. Unicode case mapping and the other Unicode spaces are not modelled.
- String lengths and first characters are counted in Unicode scalar values (Dafny's `char`), not in the UTF-16 code units of JavaScript's `.length`, `charAt(0)` and `[0]`, zod's `min` and Mongoose's `maxlength`. The two agree on text inside the Basic Multilingual Plane. A character outside it, such as an emoji, counts 1 in the model and 2 in the source. So `Zod.MinLength`, `PetModel.DescriptionErrors`, the bio `maxlength` of `UserModel`, `EditPetForm.Issues` and the `Issues` of `AuthForm`, `ContactPage` and `ApplyPage` accept some long texts the source refuses and refuse some short ones it accepts. `Strings.Initials` and `Strings.Capitalize` take a whole character where the source takes half of a surrogate pair.
- `PetInfo.IconOf`: inherited object keys such as `constructor` in `speciesIcons` are not modelled.
- The Cloudinary signature route and `uploadController` are not part of this model, because they only call the Cloudinary SDK.
- Multer's disk storage and its random file names are not modelled: the stored names are inputs of `UploadRouter.Upload`.
- argon2 hashing and verification, JWT signing and verification, and the mailer are parameters. Their own behaviour, and token expiry in time, are not modelled.
- Mongoose is modelled on these assumptions, since the repository pins no Mongoose version:
  - validation reports one message per failing path, in schema order;
  - a request string casts to an ObjectId exactly when it is 24 hexadecimal digits;
  - `findOne` applies the email path's setters to the query;
  - an update's `$set` of a nested object replaces it whole, and the update validators then check every sub-path of that object;
  - `populate` looks a `ref` up by its exact name among the registered models, and throws `MissingSchemaError` when none has it.
- `Ids.Cast`: casting follows Mongoose 7 and later, where only 24 hexadecimal digits make an ObjectId. Under Mongoose 6 (bson 4) any 12-character string also casts to an ObjectId; the model treats such a string as a cast error.
- `Schema.CastMessage` and `ApplicationController.MissingSchemaMessage` use the wording of Mongoose 6. `CastMessage` leaves out the ` because of "BSONError"` suffix that later releases append.
- `PetModel.Create`: it does not cast `listed_by` to an ObjectId as a save would. Its only caller, `PetController.CreatePet`, passes the logged-in user's stored id. For the same reason `PetModel.Valid` does not require a canonical `listed_by`.
- `PetModel.Update`: a body that writes nested paths with dotted keys, such as `"location.city"`, is not modelled. Only nested objects are.
- `PetController.CreatePet`: an `_id` in the body, which `Pet.create` would keep (and a colliding one answer with 500), is not modelled. The new pet always gets the fresh id `newId`.
- Timestamps (`createdAt`, `updatedAt`), `__v`, `resetToken` and the database connection are not modelled.
- Animations, toast timing, the loading spinners' markup and everything purely visual are not modelled.
- The client's API modules, the route files and the router setup are not modelled. Each request's outcome is an argument.
- `ListPetForm.Wizard`: `ListPetForm.tsx` as written does not compile. A second `petFormSchema` (line 74) and a second `ListPetForm` component (line 100) sit inside the first component (opened at line 47); `useState` and `X` are never imported; and the outer render (lines 321-346) uses `images`, `handleImagesUploaded` and `handleDeleteImage`, which only the inner copy declares. `Wizard` models the evident intent: one schema, one `images` list, mirrored into the form's `images` value (not executed).
- `ViewApplications.ApplicationsPage.FetchData`: the page imports `getApplicationsForPet`, `updateApplicationStatus` and the type `ApplicationWithDetails` from `applicationAPI.ts` (ViewApplicationsPage.tsx:8), but neither the client API (which exports only `applyForAdoption` and `getMyApplications`) nor any server route (the application router serves only `POST /` and `GET /mine`) defines them. As written, the page therefore fails at its import and never loads (not executed). The model takes the results of the two calls as arguments.
- `Browse.BrowsePage.FetchPets`: the page reads `response.pets` and `response.pages`, but `getAllPets` (client and server) answers a plain array. So, as written, `setPets(response.pets)` stores `undefined`, and `pets.length` (BrowsePetsPage.tsx:135) throws after every successful fetch (not executed). The model keeps no pets: it models the query sent and takes the page count as an argument.
- The browse grid renders `PetCard` with flat props (`id`, `name`, `age`, … at BrowsePetsPage.tsx:154-163), while `PetCard` reads a single `pet` prop (PetCard.tsx:28), so as written each card reads properties of `undefined` (not executed). `PetCard` is modelled on the `pet` prop it declares.
- Choosing a page link on the browse page, which sets the page directly, is not modelled as its own method.
- `PetController.UpdatePet`: it keeps `Consistent` only when the body leaves `listed_by` alone or names an id that casts to the requester's. A body naming another owner breaks the invariant (see `PetController.ReassignedOwnerBreaksListings`), and the model states that rather than promising more.
- `Extract.Walk`: `os.walk` lists siblings in the operating system's order. The model uses the order of the tree value and does not model symbolic links or read errors.
- The `print` calls of `extract.py` are not modelled.
- `AuthStore.Store`: localStorage is the `saved` field. The JSON format of `auth-storage`, its version number and the timing of rehydration are not modelled.
- Concurrency between requests is not modelled: each handler runs alone on the store.

## Findings

| source | as written | input that shows it | evidently intended | confidence | as-written member | corrected member |
|---|---|---|---|---|---|---|
| packages/backend/models/application_model.js:7 | The `pet` path refers to `'Pet'`, but the pet model is registered as `'pet'`, so `populate('pet')` in `getMyApplications` throws `MissingSchemaError` and the handler answers 500. | Any requester with at least one stored application. | The ref names the registered pet model, and the handler answers 200 with the requester's applications and their pets. | high, not executed | ApplicationController.GetMyApplications | ApplicationController.GetMyApplicationsFixed |
