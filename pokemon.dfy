/**
 * The pokemon service: a process-wide, ordered store of `Pokemon` records that
 * the HTTP handlers read and change in place. Each handler is a method of
 * `PokemonStore`; its `vars` argument is the map of path parameters the router
 * matched.
 */
module PokemonApi {
  import opened Wrappers
  import opened Request
  import Slices

  /** One record of the store. `pokemonType` is the record's `Type` field. */
  datatype Pokemon = Pokemon(
    id: string,
    name: string,
    pokemonType: string,
    evolvesFrom: string,
    evolvesInto: string)

  /** The identifier the store's lookups compare. */
  function Id(p: Pokemon): string {
    p.id
  }

  /** Go's zero value of the record: every field empty. */
  const Blank: Pokemon := Pokemon("", "", "", "", "")

  /** `p.SetId(id)`: the record with its identifier replaced and nothing else changed. */
  function SetId(p: Pokemon, id: string): (r: Pokemon)
    ensures r.id == id
    ensures r.name == p.name && r.pokemonType == p.pokemonType
    ensures r.evolvesFrom == p.evolvesFrom && r.evolvesInto == p.evolvesInto
  {
    p.(id := id)
  }

  /** `p.ReturnName()`. */
  function ReturnName(p: Pokemon): string {
    p.name
  }

  /** Setting the identifier does not change the name a record reports. */
  lemma ReturnNameAfterSetId(p: Pokemon, id: string)
    ensures ReturnName(SetId(p, id)) == ReturnName(p)
    ensures SetId(SetId(p, id), p.id) == p
  {
  }

  /** What a lookup by identifier answers: the record, or a 404 with a text message. */
  datatype GetReply = Found(pokemon: Pokemon) | NotFound(status: nat, message: string)

  const NotFoundReply: GetReply := NotFound(404, "404 Pokemon Not Found")

  /** The three records the service starts with, in this order. */
  const Lampent: Pokemon := Pokemon("1", "Lampent", "Ghost/Fire", "Litwick", "Chandelure")
  const Pikachu: Pokemon := Pokemon("2", "Pikachu", "Electric", "Pichu", "Raichu")
  const Roselia: Pokemon := Pokemon("3", "Roselia", "Grass/Poison", "Budew", "Roserade")

  /**
   * The store's identifiers agree with the 1-based positions the update
   * handler writes to: the record at index j has identifier `Decimal(j + 1)`.
   */
  ghost predicate Aligned(s: seq<Pokemon>) {
    forall j :: 0 <= j < |s| ==> s[j].id == Decimal(j + 1)
  }

  /**
   * In an aligned store, the slot `UpdateAPokemon` overwrites for the path id
   * `Decimal(n)` holds exactly the record a lookup by that id finds, so
   * update-by-position coincides with update-by-identifier.
   */
  lemma AlignedPositionIsIdentifier(s: seq<Pokemon>, n: nat)
    requires Aligned(s)
    requires 1 <= n <= |s| && n <= MaxInt
    ensures Atoi(Decimal(n)) == n
    ensures Slices.FirstIndex(s, Decimal(n), Id) == Some(n - 1)
  {
    AtoiOfDecimal(n);
    forall j | 0 <= j < n - 1 ensures Id(s[j]) != Decimal(n) {
      DecimalInjective(j + 1, n);
    }
    Slices.FirstIndexIs(s, n - 1, Decimal(n), Id);
  }

  /** The seeded store is aligned. */
  lemma SeedAligned()
    ensures Aligned([Lampent, Pikachu, Roselia])
  {
  }

  /** The in-memory store of the pokemon service. */
  class PokemonStore {
    var pokemonData: seq<Pokemon>

    /** Start-up: an empty store seeded with three records. */
    constructor ()
      ensures pokemonData == [Lampent, Pikachu, Roselia]
    {
      pokemonData := [];
      pokemonData := pokemonData + [Lampent];
      pokemonData := pokemonData + [Pikachu];
      pokemonData := pokemonData + [Roselia];
    }

    /** `GET /pokemon/`: the whole store, in order. */
    method GetAllPokemons() returns (all: seq<Pokemon>)
      ensures all == pokemonData
    {
      all := pokemonData;
    }

    /**
     * `GET /pokemon/{id}`: the first record whose identifier is the path id,
     * or 404 when there is none.
     */
    method GetAPokemon(vars: Vars) returns (reply: GetReply)
      ensures reply.Found? <==> !Slices.NoMatch(pokemonData, Param(vars, "id"), Id)
      ensures reply.Found? ==> Slices.Find(pokemonData, Param(vars, "id"), Id) == Some(reply.pokemon)
      ensures reply.NotFound? ==> reply == NotFoundReply
    {
      var id := Param(vars, "id");
      var index := 0;
      while index < |pokemonData|
        invariant 0 <= index <= |pokemonData|
        invariant forall j :: 0 <= j < index ==> pokemonData[j].id != id
      {
        var item := pokemonData[index];
        if item.id == id {
          Slices.FirstIndexIs(pokemonData, index, id, Id);
          return Found(item);
        }
        index := index + 1;
      }
      reply := NotFoundReply;
    }

    /**
     * `POST /pokemon/add/`: appends a blank record whose identifier is the
     * route's `id` parameter; the request body is never read. Answers with the
     * whole store.
     */
    method AddNewPokemon(vars: Vars) returns (all: seq<Pokemon>)
      modifies this
      ensures pokemonData == old(pokemonData) + [SetId(Blank, Param(vars, "id"))]
      ensures all == pokemonData
    {
      var newPokemon := Blank;
      newPokemon := SetId(newPokemon, Param(vars, "id"));
      pokemonData := pokemonData + [newPokemon];
      all := pokemonData;
    }

    /**
     * `DELETE /pokemon/{id}`: splices out the first record whose identifier is
     * the path id; nothing changes when none matches. Answers with the whole
     * store.
     */
    method DeleteAPokemon(vars: Vars) returns (all: seq<Pokemon>)
      modifies this
      ensures pokemonData == Slices.RemoveFirst(old(pokemonData), Param(vars, "id"), Id)
      ensures all == pokemonData
    {
      var id := Param(vars, "id");
      var index := 0;
      while index < |pokemonData|
        invariant 0 <= index <= |pokemonData|
        invariant pokemonData == old(pokemonData)
        invariant forall j :: 0 <= j < index ==> pokemonData[j].id != id
      {
        if pokemonData[index].id == id {
          Slices.RemoveFirstIsSplice(pokemonData, index, id, Id);
          pokemonData := pokemonData[..index] + pokemonData[index + 1..];
          break;
        }
        index := index + 1;
      }
      all := pokemonData;
    }

    /**
     * `POST /pokemon/update/{id}`: writes the request body, with its identifier
     * set to the path id, at position `Atoi(id) - 1`. A position outside the
     * store is the runtime's index-out-of-range fault (`ok` is false) and the
     * store is left as it was.
     */
    method UpdateAPokemon(vars: Vars, body: Pokemon) returns (ok: bool)
      requires IsDigits(Param(vars, "id"))
      modifies this
      ensures ok <==> 1 <= Atoi(Param(vars, "id")) <= |old(pokemonData)|
      ensures ok ==>
        pokemonData == old(pokemonData)[Atoi(Param(vars, "id")) - 1 := SetId(body, Param(vars, "id"))]
      ensures !ok ==> pokemonData == old(pokemonData)
    {
      var pokemonUpdate := SetId(body, Param(vars, "id"));
      var i := Atoi(Param(vars, "id"));
      ok := 1 <= i <= |pokemonData|;
      if ok {
        pokemonData := pokemonData[i - 1 := pokemonUpdate];
      }
    }
  }

  /**
   * The seeded store: `GET /pokemon/2` answers Pikachu, and `DELETE /pokemon/2`
   * leaves the records "1" and "3", in that order.
   */
  method SeedScenario() returns (got: GetReply, after: seq<Pokemon>)
    ensures got == Found(Pikachu)
    ensures after == [Lampent, Roselia]
    ensures Slices.Ids(after, Id) == ["1", "3"]
  {
    var store := new PokemonStore();
    got := store.GetAPokemon(IdVars("2"));
    assert Slices.Find(store.pokemonData, "2", Id) == Some(Pikachu) by {
      Slices.FirstIndexIs(store.pokemonData, 1, "2", Id);
    }
    after := store.DeleteAPokemon(IdVars("2"));
    Slices.RemoveFirstIsSplice([Lampent, Pikachu, Roselia], 1, "2", Id);
  }

  /**
   * `POST /pokemon/add/` matches no `{id}` segment, so the new record is blank,
   * with the empty identifier, whatever body was sent.
   */
  method AddRouteScenario() returns (after: seq<Pokemon>)
    ensures after == [Lampent, Pikachu, Roselia, Blank]
    ensures after[3].id == "" && after[3].name == ""
  {
    var store := new PokemonStore();
    after := store.AddNewPokemon(NoVars);
  }

  /**
   * Positional update after a delete: with "2" deleted, updating "3" faults
   * although Roselia has identifier "3", and updating "2" overwrites Roselia.
   */
  method UpdateAfterDeleteScenario(body: Pokemon) returns (faulted: bool, after: seq<Pokemon>)
    ensures faulted
    ensures after == [Lampent, SetId(body, "2")]
  {
    var store := new PokemonStore();
    var _ := store.DeleteAPokemon(IdVars("2"));
    Slices.RemoveFirstIsSplice([Lampent, Pikachu, Roselia], 1, "2", Id);
    assert store.pokemonData == [Lampent, Roselia];
    var ok := store.UpdateAPokemon(IdVars("3"), body);
    faulted := !ok;
    ok := store.UpdateAPokemon(IdVars("2"), body);
    after := store.pokemonData;
  }
}
