# Account data-access object — a Dafny model

This project models the account data-access object of the user service. The object sits in front of a MongoDB `Account` collection. It
filters generic updates through a whitelist of updatable fields. It checks every identifier with `ObjectId.isValid` before calling the
store, and answers `null` when the check fails. Following artists and liking tracks use MongoDB's `$addToSet` and `$pull` operators.

Modules, one per file:

- `Wrappers` (`wrappers.dfy`): `Option` for the `null` answers, `Result` for store errors.
- `Documents` (`documents.dfy`): the value type, the `Account` document and its field view `Field`. It also gives
  the effect of the three update forms the object sends: a plain assignment, `$addToSet` and `$pull`. Assigning
  to the two string-array fields goes through a cast.
- `Store` (`store.dfy`): the collection as a map from identifier to account plus its insertion order (the order the model lists query results in; MongoDB promises none without a sort). It defines the
  store calls used: `findByIdAndUpdate` with `{ new: true }`, `findByIdAndDelete`, `save` of a new document, `find`
  and `findOne` with MongoDB equality filters.
- `AccountDAO` (`account_dao.dfy`): the `ALLOWED_UPDATES` whitelist and the sanitiser. The sanitiser is a spec
  function `Sanitized` plus the loop method `Sanitize` proved equal to it. The module then has the guarded queries,
  as pure functions over the collection, and the class `AccountDao`. The class holds the collection and the
  `isValid` check, and has one method per mutating operation.
- `AccountDAOProperties` (`account_dao_properties.dfy`): the properties. An update writes only whitelisted fields
  and `updatedAt`. Follow and like are idempotent, and unfollow and unlike take out every occurrence. Every
  mutation leaves other fields and other accounts alone. Mutations and queries agree (round trips).

Foreign inputs become parameters. `ObjectId.isValid` is a constant `isValid: Id -> bool` of the class, and
nothing else is assumed about it. `new Date()` is the parameter `now`, stored as `Time(now)`. The identifier a new
document gets is a parameter of `Create`.

Where the code differs from what the account entity is meant to guarantee, the model follows the code:

- `followArtist`, `unfollowArtist`, `likeTrack` and `unlikeTrack` do not refresh `updatedAt`
  (user-service/model/dao/AccountDAO.js:83, :92, :101, :110). Only `update` and `linkToArtist` stamp it.
- `following` and `likedTracks` are whitelisted for `update`, so a caller can write them with repeated entries.
  The lists stay duplicate-free under `$addToSet` and `$pull` (`AddToSetKeepsNoDuplicates`, `PullKeepsNoDuplicates`), but only while those are the only writers. `UpdateMayRepeatFollowing`
  exhibits such an update.

## Model

| member | source | states |
|---|---|---|
| `AccountDAO.Sanitized` | user-service/model/dao/AccountDAO.js:44-52 | every key of the payload is whitelisted or `updatedAt`; every key other than `updatedAt` is one the caller sent in a plain object; every whitelisted key of an object payload is copied with its value; `updatedAt` is the stamp; a payload that is not a plain object (null, primitive, array, date) yields only `updatedAt` |
| `AccountDAO.Sanitize` | user-service/model/dao/AccountDAO.js:44-52 | the loop over the caller's keys builds exactly the payload `Sanitized` describes |
| `AccountDAO.IsObject` | user-service/model/dao/AccountDAO.js:45 | the guard `updateData && typeof updateData === 'object'`: true for objects, arrays and dates, false for null and primitives |
| `AccountDAO.OwnKeys` | user-service/model/dao/AccountDAO.js:46 | `Object.keys`: the field names of an object, the decimal indices of an array, nothing otherwise |
| `AccountDAO.OwnKeysShape` | user-service/model/dao/AccountDAO.js:46 | the own keys of an object are exactly its field names, those of an array all start with a digit, and a date or primitive has none |
| `AccountDAO.AllowedStartWithLetter` | user-service/model/dao/AccountDAO.js:4-19 | every whitelisted name is non-empty and starts with a letter |
| `AccountDAO.IndexKeysNotAllowed` | user-service/model/dao/AccountDAO.js:45-47 | the keys `Object.keys` gives for a non-object value (array indices) are never whitelisted |
| `AccountDAO.Decimal` | user-service/model/dao/AccountDAO.js:46 | an array index key is a non-empty string starting with a digit |
| `AccountDAO.ArtistLink` | user-service/model/dao/AccountDAO.js:58-65 | the `linkToArtist` assignment of `artistId` and `updatedAt` always passes the cast |
| `AccountDAO.FindByEmail` | user-service/model/dao/AccountDAO.js:27-30 | an empty or non-string e-mail gives `null`; otherwise the answer is a stored account whose `email` matches, and `null` exactly when no stored account matches |
| `AccountDAO.FindById` | user-service/model/dao/AccountDAO.js:32-35 | an account is returned exactly when the identifier is valid and stored, and it is the stored one |
| `AccountDAO.FindByRole` | user-service/model/dao/AccountDAO.js:68-70 | for a string `role`, the result holds exactly the stored accounts whose `role` matches, each once |
| `AccountDAO.FindBandsWithoutArtist` | user-service/model/dao/AccountDAO.js:72-77 | the result holds exactly the stored accounts whose role matches `band` and that have no `artistId` field, each once |
| `AccountDAO.AccountDao.Create` | user-service/model/dao/AccountDAO.js:22-25 | the collection afterwards and the answer are those of saving a new document under the assigned identifier |
| `AccountDAO.AccountDao.Update` | user-service/model/dao/AccountDAO.js:42-54 | an invalid identifier gives `null` and leaves the collection unchanged; otherwise the sanitised payload is applied by `findByIdAndUpdate` and the updated account is returned |
| `AccountDAO.AccountDao.GuardedUpdate` | user-service/model/dao/AccountDAO.js:57-58 | an invalid identifier gives `null` and changes nothing; otherwise the answer and new state are `findByIdAndUpdate`'s |
| `AccountDAO.AccountDao.LinkToArtist` | user-service/model/dao/AccountDAO.js:56-66 | an invalid identifier gives `null` and changes nothing; otherwise `artistId` and `updatedAt` are assigned and the updated account is returned |
| `AccountDAO.AccountDao.FollowArtist` | user-service/model/dao/AccountDAO.js:79-86 | an invalid identifier gives `null` and changes nothing; otherwise `$addToSet` on `following`; a returned account follows the artist |
| `AccountDAO.AccountDao.UnfollowArtist` | user-service/model/dao/AccountDAO.js:88-95 | an invalid identifier gives `null` and changes nothing; otherwise `$pull` on `following`; a returned account no longer follows the artist |
| `AccountDAO.AccountDao.LikeTrack` | user-service/model/dao/AccountDAO.js:97-104 | an invalid identifier gives `null` and changes nothing; otherwise `$addToSet` on `likedTracks`; a returned account likes the track |
| `AccountDAO.AccountDao.UnlikeTrack` | user-service/model/dao/AccountDAO.js:106-113 | an invalid identifier gives `null` and changes nothing; otherwise `$pull` on `likedTracks`; a returned account no longer likes the track |
| `AccountDAO.AccountDao.Delete` | user-service/model/dao/AccountDAO.js:115-118 | an invalid identifier gives `null` and changes nothing; otherwise the account is removed and returned |
| `Documents.InsertIfAbsent` | user-service/model/dao/AccountDAO.js:83 | `$addToSet`: the element is present afterwards, nothing else is added, the old list is a prefix, and the list is unchanged if the element was present |
| `Documents.RemoveAll` | user-service/model/dao/AccountDAO.js:92 | `$pull`: exactly the elements different from the pulled one remain, each as often as before, and the pulled one not at all; an absent element leaves the list unchanged |
| `Documents.CastStrings` | user-service/model/dao/AccountDAO.js:53 | a value assigned to a string-array field casts exactly when it is an array of strings, and then to the same array |
| `Documents.CastStringsValue` | user-service/model/dao/AccountDAO.js:53 | a stored string array casts back to itself |
| `Documents.CheckUpdate` | user-service/model/dao/AccountDAO.js:53 | an update fails its cast exactly when it assigns a non-string-array value to `following` or `likedTracks` |
| `Documents.Apply` | user-service/model/dao/AccountDAO.js:53 | an update never changes the account's identifier |
| `Store.FindByIdAndUpdate` | user-service/model/dao/AccountDAO.js:53 | a failed cast raises an error and changes nothing; a missing document gives `null` and changes nothing; otherwise only the document under the identifier is replaced by its updated form, which is returned; the collection invariant is kept |
| `Store.FindByIdAndDelete` | user-service/model/dao/AccountDAO.js:117 | the stored document is returned and removed, and every other document stays; the collection invariant is kept |
| `Store.Insert` | user-service/model/dao/AccountDAO.js:23-24 | a new document is stored and appended to the insertion order exactly when its data casts and its identifier is free; then it has the given identifier and every field not in the data keeps its schema default (no attributes, empty lists), so `artistId` is absent unless sent; otherwise an error and no change |
| `Store.Holds` | user-service/model/dao/AccountDAO.js:74-75 | one filter clause: equality (the field equals the value or is an array holding it; `null` also matches a missing field) or `$exists: false` |
| `Store.Matches` | user-service/model/dao/AccountDAO.js:73-76 | a filter document holds when every one of its clauses holds |
| `Store.ListFieldHolds` | user-service/model/dao/AccountDAO.js:69 | equality on a string-array field holds exactly when the array contains the string |
| `Store.MissingMatchesOnlyNull` | user-service/model/dao/AccountDAO.js:75 | on a missing field, an equality clause holds exactly for `null` |
| `Store.MatchesSingle` | user-service/model/dao/AccountDAO.js:29 | a one-clause filter such as `{ email }` or `{ role }` holds exactly when its clause does |
| `Store.SelectFrom` | user-service/model/dao/AccountDAO.js:69 | from a duplicate-free list of identifiers, the result holds exactly the listed stored documents that match, each once |
| `Store.Find` | user-service/model/dao/AccountDAO.js:69 | the result holds exactly the stored documents that match the filter, each once |
| `Store.FindOne` | user-service/model/dao/AccountDAO.js:29 | `null` exactly when no stored document matches; otherwise a matching stored document |
| `AccountDAOProperties.AssignedFieldReads` | user-service/model/dao/AccountDAO.js:53 | after an assignment that passed its cast, an assigned field other than `_id` reads back as assigned |
| `AccountDAOProperties.UnassignedFieldKept` | user-service/model/dao/AccountDAO.js:53 | after an assignment, a field it does not name keeps its value |
| `AccountDAOProperties.AssignmentEffect` | user-service/model/dao/AccountDAO.js:53 | after an assignment every assigned field reads back as assigned and every other field is unchanged |
| `AccountDAOProperties.UpdateWritesOnlyWhitelisted` | user-service/model/dao/AccountDAO.js:42-54 | after `update`, every field outside the whitelist and other than `updatedAt` (password, role, artistId, ...) is unchanged, every field the caller did not send other than `updatedAt` is unchanged, whitelisted fields sent hold the caller's values, and `updatedAt` holds the stamp |
| `AccountDAOProperties.UnsentKept` | user-service/model/dao/AccountDAO.js:46-48 | after `update`, a field the caller did not send, other than `updatedAt`, keeps its value even when it is whitelisted |
| `AccountDAOProperties.StampWritten` | user-service/model/dao/AccountDAO.js:52-53 | after `update`, `updatedAt` holds the stamp, whatever the caller sent for it |
| `AccountDAOProperties.WhitelistedWritten` | user-service/model/dao/AccountDAO.js:46-48 | after `update`, a whitelisted field the caller sent holds the caller's value |
| `AccountDAOProperties.NotWritten` | user-service/model/dao/AccountDAO.js:4-19 | after `update`, a field outside the whitelist other than `updatedAt` keeps its value |
| `AccountDAOProperties.ProtectedFieldsKept` | user-service/model/dao/AccountDAO.js:4-19 | `update` never changes `password`, `role`, `artistId` or `_id`, whatever the caller sends |
| `AccountDAOProperties.NonObjectUpdateOnlyStamps` | user-service/model/dao/AccountDAO.js:45-52 | an update whose payload is not a plain object passes the cast and changes only `updatedAt` |
| `AccountDAOProperties.PasswordPayloadSanitized` | user-service/model/dao/AccountDAO.js:44-52 | the payload `{ password: "x", username: "y" }` is sanitised to exactly `username` and the `updatedAt` stamp |
| `AccountDAOProperties.PasswordPayloadIgnored` | user-service/model/dao/AccountDAO.js:42-54 | the update sent for `{ password: "x", username: "y" }` passes the cast and, applied to any account, keeps the password, sets the username, and changes nothing but username and `updatedAt` |
| `AccountDAOProperties.UpdateMayRepeatFollowing` | user-service/model/dao/AccountDAO.js:16 | `update` can write `following` as a list with a repeated entry |
| `AccountDAOProperties.RemoveAllAppend` | user-service/model/dao/AccountDAO.js:92 | `$pull` distributes over concatenation, so the remaining elements keep their order |
| `AccountDAOProperties.RemoveAllIdempotent` | user-service/model/dao/AccountDAO.js:92 | pulling the same element twice is pulling it once |
| `AccountDAOProperties.AddToSetEffect` | user-service/model/dao/AccountDAO.js:81-85 | after `$addToSet` the element is in the list, occurs once if it was absent, the old list is a prefix, an already present element changes nothing, and no other field changes |
| `AccountDAOProperties.PullEffect` | user-service/model/dao/AccountDAO.js:90-94 | after `$pull` no occurrence is left, every other element remains, an absent element changes nothing, and no other field changes |
| `AccountDAOProperties.AddToSetKeepsNoDuplicates` | user-service/model/dao/AccountDAO.js:83 | `$addToSet` keeps a duplicate-free `following` or `likedTracks` duplicate-free |
| `AccountDAOProperties.PullKeepsNoDuplicates` | user-service/model/dao/AccountDAO.js:92 | `$pull` keeps a duplicate-free `following` or `likedTracks` duplicate-free |
| `AccountDAOProperties.AddToSetTwiceIsOnce` | user-service/model/dao/AccountDAO.js:81-85 | a second identical follow or like returns the same document and leaves the same collection |
| `AccountDAOProperties.PullTwiceIsOnce` | user-service/model/dao/AccountDAO.js:90-94 | a second identical unfollow or unlike returns the same document and leaves the same collection |
| `AccountDAOProperties.PullAbsentReturnsDocument` | user-service/model/dao/AccountDAO.js:90-94 | unfollowing an artist that is not followed returns the unchanged account and leaves the collection as it was |
| `AccountDAOProperties.ArtistLinkEffect` | user-service/model/dao/AccountDAO.js:56-66 | the `linkToArtist` assignment sets `artistId` and `updatedAt`, keeps the identifier, and changes no other field |
| `AccountDAOProperties.LinkedAccountLeavesUnlinkedBands` | user-service/model/dao/AccountDAO.js:56-77 | linking a stored account succeeds, and the linked account is then not among the bands without an artist |
| `AccountDAOProperties.CreateThenFindById` | user-service/model/dao/AccountDAO.js:22-35 | an account created under a valid identifier is what `findById` returns, with every provided attribute as provided and every other field at its default |
| `AccountDAOProperties.CreatedBandIsUnlinked` | user-service/model/dao/AccountDAO.js:22-25 | a band created without `artistId` has no `artistId` field at all and is listed by `findBandsWithoutArtist` |
| `AccountDAOProperties.DeleteThenFindById` | user-service/model/dao/AccountDAO.js:32-35 | after `delete` the account is not found and every other account is found as before |
| `AccountDAOProperties.UpdateThenFindById` | user-service/model/dao/AccountDAO.js:32-35 | after a successful update `findById` returns what the update returned |

## Left out

- `findByIdWithArtist` (user-service/model/dao/AccountDAO.js:37-40) is not modelled: its `populate('artistId')` resolves a reference into the artist collection, which is not part of this model.
- The `Account` schema (user-service/model/models/Account) is not part of this model. Its validators, defaults other than the two empty lists, strict-mode dropping of unknown paths, timestamps and unique indexes are left out. Casting is reduced to string-array fields, which accept only arrays of strings; Mongoose's more lenient casts (numbers to strings, one value to a one-element array) and casts of other fields and of query values are left out.
- `ObjectId.isValid` is an uninterpreted parameter. Identifiers are strings, and a valid string is used directly as the document key. The conversion of the 12-character form that `isValid` also accepts into a different 24-digit id is not modelled.
- `String(x)` is not modelled: the model's identifier, artist id and track id arguments are the results of `String(x)`, so callers passing ObjectIds or numbers are covered only through their string form.
- `_id` inside an assignment is not modelled (MongoDB refuses to change it); the sanitiser never forwards it, and `linkToArtist` does not write it. In a creation payload `_id` would choose the identifier; the model takes the identifier as `Create`'s `id` parameter and ignores an `_id` in the data.
- Store failures other than a failed cast and a duplicate identifier (connectivity, timeouts, server errors) are left out, and so are asynchrony and the module-level singleton export (:121).
- `new Date()` is the parameter `now`. Numbers are modelled as integers (the layer does no arithmetic on them), and `undefined` is the same value as `null`.
- `Object.keys` enumeration order is not modelled: the sanitiser loop takes keys from a set, and the order does not affect its result.
- AccountDAO.FindByRole: takes `role` as a string. The source passes `role` unchecked into `find({ role })`, so an object such as `{ $ne: "band" }` is read by MongoDB as a query operator; query operators other than `$exists: false` are not modelled.
- Documents.Apply: its own contract states only that the identifier is kept. What each update writes is stated by `AssignmentEffect`, `AddToSetEffect` and `PullEffect`.
