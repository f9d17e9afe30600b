/**
 * The person service: a process-wide, ordered store of `Person` records that
 * the HTTP handlers read and change in place. Each handler is a method of
 * `PeopleStore`; its `vars` argument is the map of path parameters the router
 * matched.
 */
module PeopleApi {
  import opened Wrappers
  import opened Request
  import Slices

  datatype Address = Address(city: string, state: string)

  /** One record of the store; the address is a pointer that may be nil. */
  datatype Person = Person(
    id: string,
    firstname: string,
    lastname: string,
    address: Option<Address>)

  /** The identifier the store's lookups compare. */
  function Id(p: Person): string {
    p.id
  }

  /** Go's zero value `Person{}`: empty strings and no address. */
  const ZeroPerson: Person := Person("", "", "", None)

  /** The two records the service starts with, in this order. */
  const Rosie: Person := Person("1", "Rosie", "Hamilton", Some(Address("Newcastle", "Tyne and Wear")))
  const Jane: Person := Person("2", "Jane", "Doe", None)

  /** The in-memory store of the person service. */
  class PeopleStore {
    var people: seq<Person>

    /** Start-up: an empty store seeded with two records. */
    constructor ()
      ensures people == [Rosie, Jane]
    {
      people := [];
      people := people + [Rosie];
      people := people + [Jane];
    }

    /** `GET /people`: the whole store, in order. */
    method GetPeople() returns (all: seq<Person>)
      ensures all == people
    {
      all := people;
    }

    /**
     * `GET /people/{id}`: the first record whose identifier is the path id, or
     * the zero-valued record when there is none.
     */
    method GetPerson(vars: Vars) returns (person: Person)
      ensures Slices.NoMatch(people, Param(vars, "id"), Id) ==> person == ZeroPerson
      ensures !Slices.NoMatch(people, Param(vars, "id"), Id) ==>
        Slices.Find(people, Param(vars, "id"), Id) == Some(person)
    {
      var id := Param(vars, "id");
      var index := 0;
      while index < |people|
        invariant 0 <= index <= |people|
        invariant forall j :: 0 <= j < index ==> people[j].id != id
      {
        var item := people[index];
        if item.id == id {
          Slices.FirstIndexIs(people, index, id, Id);
          return item;
        }
        index := index + 1;
      }
      person := ZeroPerson;
    }

    /**
     * `POST /people/{id}`: appends the decoded body with its identifier
     * replaced by the path id, even when that id is already in the store.
     * Answers with the whole store.
     */
    method CreatePerson(vars: Vars, body: Person) returns (all: seq<Person>)
      modifies this
      ensures people == old(people) + [body.(id := Param(vars, "id"))]
      ensures all == people
    {
      var person := body;
      person := person.(id := Param(vars, "id"));
      people := people + [person];
      all := people;
    }

    /**
     * `DELETE /people/{id}`: splices out the first record whose identifier is
     * the path id; nothing changes when none matches. Answers with the whole
     * store.
     */
    method DeletePerson(vars: Vars) returns (all: seq<Person>)
      modifies this
      ensures people == Slices.RemoveFirst(old(people), Param(vars, "id"), Id)
      ensures all == people
    {
      var id := Param(vars, "id");
      var index := 0;
      while index < |people|
        invariant 0 <= index <= |people|
        invariant people == old(people)
        invariant forall j :: 0 <= j < index ==> people[j].id != id
      {
        if people[index].id == id {
          Slices.RemoveFirstIsSplice(people, index, id, Id);
          people := people[..index] + people[index + 1..];
          break;
        }
        index := index + 1;
      }
      all := people;
    }
  }

  /**
   * The seeded store: person "1" has an address in Newcastle, Tyne and Wear,
   * person "2" has none.
   */
  method SeedScenario() returns (first: Person, second: Person)
    ensures first.address == Some(Address("Newcastle", "Tyne and Wear"))
    ensures second.firstname == "Jane" && second.address == None
  {
    var store := new PeopleStore();
    first := store.GetPerson(IdVars("1"));
    second := store.GetPerson(IdVars("2"));
    Slices.FirstIndexIs(store.people, 0, "1", Id);
    Slices.FirstIndexIs(store.people, 1, "2", Id);
  }

  /**
   * A miss cannot be told apart from a stored record that happens to be
   * blank: once an empty body is stored under the empty id, looking up ""
   * and looking up an id nobody has answer the same. The router never
   * matches an empty `{id}` segment, so this store state is reachable only
   * by calling the store operation directly, not through `POST /people/{id}`.
   */
  method MissScenario() returns (hit: Person, miss: Person)
    ensures hit == miss == ZeroPerson
  {
    var store := new PeopleStore();
    var _ := store.CreatePerson(IdVars(""), ZeroPerson);
    hit := store.GetPerson(IdVars(""));
    Slices.FirstIndexIs(store.people, 2, "", Id);
    miss := store.GetPerson(IdVars("9"));
  }

  /**
   * Duplicate identifiers: creating a second person "1" leaves Rosie as the
   * answer to `GET /people/1`; the first delete removes Rosie and exposes the
   * newcomer.
   */
  method DuplicateScenario(body: Person) returns (before: Person, after: Person, remaining: seq<Person>)
    ensures before == Rosie
    ensures after == body.(id := "1")
    ensures remaining == [Jane, body.(id := "1")]
  {
    var store := new PeopleStore();
    var _ := store.CreatePerson(IdVars("1"), body);
    var s := store.people;
    before := store.GetPerson(IdVars("1"));
    Slices.FirstIndexIs(s, 0, "1", Id);
    remaining := store.DeletePerson(IdVars("1"));
    Slices.RemoveFirstIsSplice(s, 0, "1", Id);
    after := store.GetPerson(IdVars("1"));
    Slices.FirstIndexIs(remaining, 1, "1", Id);
  }
}
