# pokemonGolang record stores, modelled in Dafny

The repository holds two small Go web services that each keep a process-wide
slice of records and let HTTP handlers read and change it: the pokemon service
(`pokemon.go`, global `pokemondata`) and the person service (`main.go`, global
`people`). This project models those two stores and the store logic of their
handlers.

- `wrappers.dfy` (`Wrappers`): `Option`, used for Go's nil `*Address` and for
  "no match".
- `slices.dfy` (`Slices`): the specification both stores share. It is generic
  over the record type, with an identifier projection `idOf`. It defines the
  first-match scan (`FirstIndex`, `Find`) and a recursive reference definition
  of delete-first-match (`RemoveFirst`). Its lemmas state what the handlers
  promise: which record is found, what a delete removes and keeps, and how
  append and delete interact.
- `request.dfy` (`Request`): the router's path parameters as a
  `map<string, string>`. Indexing a missing key gives `""`, as indexing a Go
  map does. It also holds the digit strings the route pattern `[0-9]+` admits
  and `strconv.Atoi` on them.
- `pokemon.dfy` (`PokemonApi`): the `Pokemon` record, `SetId`, `ReturnName`,
  and the class `PokemonStore`. Its field `pokemonData` is the global slice,
  and each handler is a method. Get and delete are loops over the store,
  proved against the `Slices` specification; update writes one position.
- `people.dfy` (`PeopleApi`): the `Person` and `Address` records and the class
  `PeopleStore` with field `people` and its handlers.

Behaviour kept as the code has it:

- Identifiers are not unique.
- A lookup answers the first match.
- A delete removes only the first match.
- A pokemon update writes by position `Atoi(id) - 1`, not by identifier.
  `AlignedPositionIsIdentifier` proves that the two agree while every record
  sits at the position its identifier names. `UpdateAfterDeleteScenario`
  shows them diverging after a delete.
- The pokemon service answers a miss with 404 "404 Pokemon Not Found". The
  person service answers a miss with the zero-valued `Person`.
- `AddNewPokemon` never reads the request body. Its route `/pokemon/add/` has
  no `{id}` segment, so the appended record is blank with identifier `""`.
  The comment at `pokemon.go:112` and the curl example at `pokemon.go:124`
  suggest that the body is used and a next free id is assigned. The code does
  neither, and the model follows the code.

## Model

| member | source | states |
|---|---|---|
| `Slices.FirstIndex` | pokemon.go:42-47 | the scan's result is the lowest position whose identifier equals the key, and it is absent exactly when no record has that identifier |
| `Slices.Find` | main.go:37-42 | the record a lookup returns carries the key and is in the store; there is none exactly when no record has the key |
| `Slices.RemoveFirst` | pokemon.go:71-76 | delete-first-match leaves the store identical when nothing matches and shortens it by exactly one otherwise |
| `Slices.RemoveFirstIsSplice` | pokemon.go:73 | the recursive definition equals splicing out the first matching position `k`: `s[..k] + s[k+1..]` |
| `Slices.RemoveFirstKeepsOrder` | main.go:62-67 | records before the first match keep their positions, and every later record, including later duplicates of the key, moves down by one |
| `Slices.RemoveFirstCount` | pokemon.go:71-76 | a delete removes exactly one record with the key when one exists, and no record with any other identifier |
| `Slices.FindAfterRemoveOther` | main.go:62-67 | after deleting one identifier, a lookup of any other identifier finds the same record as before |
| `Slices.FindAfterRemoveSame` | pokemon.go:71-76 | after a delete, a lookup of the same identifier finds its next duplicate, if there is one |
| `Slices.FindAfterAppend` | main.go:53-56 | an appended record is found by a lookup only when no earlier record has its identifier, so duplicates are shadowed |
| `Slices.RemoveFirstUndoesAppend` | main.go:53-67 | deleting the identifier of a just-appended record whose identifier was new gives back the earlier store |
| `Request.Param` | pokemon.go:63 | a path parameter the route did not match reads as the empty string |
| `Request.Atoi` | pokemon.go:91-94 | the update position is the decimal value of the path id, clamped to the largest 64-bit `int` when it overflows |
| `Request.DigitsValueOfDecimal` | pokemon.go:91 | parsing the canonical decimal spelling of `n` gives back `n` |
| `Request.AtoiOfDecimal` | pokemon.go:91 | `Atoi` of the spelling of any position that fits an `int` is that position |
| `PokemonApi.SetId` | pokemon.go:22-25 | `SetId` replaces the identifier and leaves name, type, evolves-from and evolves-into unchanged |
| `PokemonApi.ReturnNameAfterSetId` | pokemon.go:27-30 | `ReturnName` (the record's name) reports the same name after `SetId`, and setting the old identifier back restores the record |
| `PokemonApi.AlignedPositionIsIdentifier` | pokemon.go:95-97 | when every record's identifier is the decimal of its 1-based position, the slot the update writes for path id `n` is exactly the record a lookup of `n` finds |
| `PokemonApi.SeedAligned` | pokemon.go:104-106 | the seeded store is aligned in that sense |
| `PokemonApi.PokemonStore.constructor` | pokemon.go:103-106 | start-up leaves Lampent "1", Pikachu "2" and Roselia "3" in the store, in that order |
| `PokemonApi.PokemonStore.GetAllPokemons` | pokemon.go:54-56 | the listing is the whole store in order |
| `PokemonApi.PokemonStore.GetAPokemon` | pokemon.go:40-51 | answers Found exactly when some record has the path id, and then the first such record; otherwise 404 with "404 Pokemon Not Found" |
| `PokemonApi.PokemonStore.AddNewPokemon` | pokemon.go:59-66 | the store grows by one blank record at the end, with the path parameter `id` as identifier; earlier records are unchanged; the answer is the new store |
| `PokemonApi.PokemonStore.DeleteAPokemon` | pokemon.go:68-78 | the new store is `RemoveFirst` of the old one for the path id; the answer is the new store |
| `PokemonApi.PokemonStore.UpdateAPokemon` | pokemon.go:80-99 | with `i = Atoi(id)`, the update succeeds exactly when `1 <= i <= len`; then only slot `i-1` changes, to the body with identifier set to the path string; otherwise the index fault leaves the store unchanged |
| `PokemonApi.SeedScenario` | pokemon.go:104-106 | on the seeded store, GET "2" answers Pikachu and DELETE "2" leaves identifiers "1", "3" |
| `PokemonApi.AddRouteScenario` | pokemon.go:112 | POST `/pokemon/add/` appends a record whose fields are all empty, including the identifier |
| `PokemonApi.UpdateAfterDeleteScenario` | pokemon.go:95-97 | after deleting "2", updating "3" faults although Roselia has identifier "3", and updating "2" overwrites Roselia |
| `PeopleApi.PeopleStore.constructor` | main.go:73-74 | start-up leaves Rosie "1", with an address, and Jane "2", without one, in the store, in that order |
| `PeopleApi.PeopleStore.GetPeople` | main.go:47-49 | the listing is the whole store in order |
| `PeopleApi.PeopleStore.GetPerson` | main.go:34-44 | answers the first record with the path id, or the zero-valued `Person` when none has it |
| `PeopleApi.PeopleStore.CreatePerson` | main.go:51-58 | the store grows by one record at the end: the body with its identifier overridden by the path id; earlier records are unchanged; duplicates are accepted |
| `PeopleApi.PeopleStore.DeletePerson` | main.go:60-69 | the new store is `RemoveFirst` of the old one for the path id; the answer is the new store |
| `PeopleApi.SeedScenario` | main.go:73-74 | person "1" has the address Newcastle, Tyne and Wear, and person "2" has none |
| `PeopleApi.MissScenario` | main.go:37-43 | a miss answers the same as a hit on a stored blank record |
| `PeopleApi.DuplicateScenario` | main.go:51-67 | a second person "1" is shadowed by Rosie until the first delete of "1" removes Rosie and exposes it |

## Left out

- HTTP routing (gorilla/mux), `http.ListenAndServe`, `log.Fatal` and the
  listener port are not modelled. Each handler takes the matched path
  parameters as a map. `Request.NoVars` is what `/pokemon/add/` yields, and
  `Request.IdVars` is what the routes with `{id}` yield.
- JSON encoding and decoding are not modelled. This covers the `omitempty`
  tag spellings and the decode errors the handlers ignore. A decoded body is
  an arbitrary record argument, and a response that encodes the store is the
  returned sequence.
- `http.Error` is modelled only as its status and message in
  `PokemonApi.NotFoundReply`.
- `fmt.Println` and `fmt.Printf` debug output is not modelled. It does not
  affect the store.
- The handler methods accept path parameters the router never produces:
  the empty id (`Request.IdVars("")`, which `/people/{id}` cannot match)
  for the person handlers, and non-digit ids for `GetAPokemon` and
  `DeleteAPokemon`, whose routes admit only `[0-9]+`. The model's answers
  for those inputs describe the store operations, not reachable requests.
- `PokemonApi.PokemonStore.UpdateAPokemon` requires the path id to be a digit
  string, which the route pattern `{id:[0-9]+}` guarantees. `strconv.Atoi` is
  modelled only on such strings.
- The runtime panic on an out-of-range update is modelled as `ok == false`
  with the store unchanged. The recovery of the panic by the HTTP server is
  not modelled.
- Concurrent requests are not modelled. The global slices are unguarded in
  the source; the model has a single sequential owner of each store.
- Slice aliasing is not modelled. Go's `append(s[:i], s[i+1:]...)` shifts
  elements within the slice's backing array. Nothing else holds that array,
  so the model treats the store as a value sequence that the methods
  reassign.
