/** The account service over its repository: a store of accounts keyed by id, with ids
    assigned by the store on creation. */
module AccountService {
  import opened Wrappers
  import opened Basics
  import opened AccountRequests

  /** The three data fields of a stored account; its id is the key it is stored under. */
  datatype AccountData = AccountData(firstName: JString, lastName: JString, email: JString)

  datatype AccountResponse = AccountResponse(id: int, firstName: JString, lastName: JString, email: JString)

  /** The exception thrown for an id the repository does not hold. */
  datatype EntityNotFound = EntityNotFound(message: string)

  function MapToEntity(req: AccountRequest): AccountData {
    AccountData(req.firstName, req.lastName, req.email)
  }

  function MapToResponse(id: int, a: AccountData): AccountResponse {
    AccountResponse(id, a.firstName, a.lastName, a.email)
  }

  function NotFoundMessage(id: int): string {
    "Account not found with id: " + LongToString(id)
  }

  // ----- The store as a value, and the service's operations on it -----

  /** The repository's contents and the id it assigns next. */
  datatype StoreState = StoreState(accounts: map<int, AccountData>, nextId: int)

  /** Ids are assigned from 1 upwards, so every stored id lies below the next one. */
  predicate StoreValid(s: StoreState) {
    s.nextId >= 1 && forall id :: id in s.accounts ==> 1 <= id < s.nextId
  }

  const EmptyStore := StoreState(map[], 1)

  /** `createAccount`: the entity gets the next id and the request's three fields. */
  function Create(s: StoreState, req: AccountRequest): (r: (StoreState, AccountResponse))
    ensures r.1.id == s.nextId
    ensures r.1.firstName == req.firstName && r.1.lastName == req.lastName && r.1.email == req.email
    ensures r.0.accounts.Keys == s.accounts.Keys + {r.1.id}
    ensures r.0.accounts[r.1.id] == MapToEntity(req)
    ensures forall id :: id in s.accounts && id != r.1.id ==> r.0.accounts[id] == s.accounts[id]
    ensures StoreValid(s) ==> r.1.id !in s.accounts && StoreValid(r.0)
  {
    var id := s.nextId;
    (StoreState(s.accounts[id := MapToEntity(req)], id + 1), MapToResponse(id, MapToEntity(req)))
  }

  /** `getAccountById`: the stored account's four fields, or not-found naming the id. */
  function Get(s: StoreState, id: int): (r: Result<AccountResponse, EntityNotFound>)
    ensures r.Ok? <==> id in s.accounts
    ensures r.Ok? ==> r.value.id == id && r.value.firstName == s.accounts[id].firstName
                      && r.value.lastName == s.accounts[id].lastName && r.value.email == s.accounts[id].email
    ensures r.Err? ==> r.error.message == "Account not found with id: " + LongToString(id)
  {
    if id in s.accounts then Ok(MapToResponse(id, s.accounts[id])) else Err(EntityNotFound(NotFoundMessage(id)))
  }

  /** `updateAccount`: exactly the three data fields of that one account are replaced;
      an absent id fails and nothing is saved. */
  function Update(s: StoreState, id: int, req: AccountRequest): (r: (StoreState, Result<AccountResponse, EntityNotFound>))
    ensures r.1.Ok? <==> id in s.accounts
    ensures r.1.Err? ==> r.0 == s && r.1.error.message == NotFoundMessage(id)
    ensures r.1.Ok? ==> r.1.value == AccountResponse(id, req.firstName, req.lastName, req.email)
    ensures r.1.Ok? ==> r.0.nextId == s.nextId && r.0.accounts.Keys == s.accounts.Keys
    ensures r.1.Ok? ==> r.0.accounts[id] == AccountData(req.firstName, req.lastName, req.email)
    ensures forall k :: k in s.accounts && k != id ==> r.0.accounts[k] == s.accounts[k]
    ensures StoreValid(s) ==> StoreValid(r.0)
  {
    if id !in s.accounts then (s, Err(EntityNotFound(NotFoundMessage(id))))
    else
      var updated := MapToEntity(req);
      (s.(accounts := s.accounts[id := updated]), Ok(MapToResponse(id, updated)))
  }

  /** `deleteAccount`: exactly that key is removed; an absent id fails and changes nothing. */
  function Delete(s: StoreState, id: int): (r: (StoreState, Result<(), EntityNotFound>))
    ensures r.1.Ok? <==> id in s.accounts
    ensures r.1.Err? ==> r.0 == s && r.1.error.message == NotFoundMessage(id)
    ensures r.1.Ok? ==> r.0.accounts.Keys == s.accounts.Keys - {id} && r.0.nextId == s.nextId
    ensures forall k :: k in r.0.accounts ==> k in s.accounts && r.0.accounts[k] == s.accounts[k]
    ensures StoreValid(s) ==> StoreValid(r.0)
  {
    if id !in s.accounts then (s, Err(EntityNotFound(NotFoundMessage(id))))
    else (s.(accounts := s.accounts - {id}), Ok(()))
  }

  /** The stored accounts with ids in [lo, hi), in ascending id order. */
  function Listing(accounts: map<int, AccountData>, lo: int, hi: int): seq<AccountResponse>
    decreases hi - lo
  {
    if hi <= lo then []
    else Listing(accounts, lo, hi - 1)
         + (if hi - 1 in accounts then [MapToResponse(hi - 1, accounts[hi - 1])] else [])
  }

  /** Each response in `r` is a stored account with an id in [lo, hi), field for field;
      ids strictly ascend, so no account appears twice; and every stored id in the range
      is listed. */
  ghost predicate ListsAccounts(r: seq<AccountResponse>, accounts: map<int, AccountData>, lo: int, hi: int) {
    && (forall k :: 0 <= k < |r| ==>
          lo <= r[k].id < hi && r[k].id in accounts && r[k] == MapToResponse(r[k].id, accounts[r[k].id]))
    && (forall j, k :: 0 <= j < k < |r| ==> r[j].id < r[k].id)
    && (forall id :: lo <= id < hi && id in accounts ==> exists k :: 0 <= k < |r| && r[k].id == id)
  }

  lemma {:induction false} ListingComplete(accounts: map<int, AccountData>, lo: int, hi: int)
    ensures ListsAccounts(Listing(accounts, lo, hi), accounts, lo, hi)
    decreases hi - lo
  {
    if hi > lo {
      ListingComplete(accounts, lo, hi - 1);
      var prefix := Listing(accounts, lo, hi - 1);
      var r := Listing(accounts, lo, hi);
      assert forall k :: 0 <= k < |prefix| ==> r[k] == prefix[k];
      forall k | 0 <= k < |r|
        ensures lo <= r[k].id < hi && r[k].id in accounts && r[k] == MapToResponse(r[k].id, accounts[r[k].id])
      {
        if k >= |prefix| {
          assert hi - 1 in accounts && r[k] == MapToResponse(hi - 1, accounts[hi - 1]);
        }
      }
      forall id | lo <= id < hi && id in accounts
        ensures exists k :: 0 <= k < |r| && r[k].id == id
      {
        if id == hi - 1 {
          assert r[|prefix|].id == id;
        } else {
          var k :| 0 <= k < |prefix| && prefix[k].id == id;
          assert r[k].id == id;
        }
      }
    }
  }

  /** `getAllAccounts`: one response per stored account, each equal to it field for field. */
  function All(s: StoreState): (r: seq<AccountResponse>)
    ensures forall k :: 0 <= k < |r| ==> r[k].id in s.accounts && r[k] == MapToResponse(r[k].id, s.accounts[r[k].id])
    ensures forall j, k :: 0 <= j < k < |r| ==> r[j].id != r[k].id
    ensures StoreValid(s) ==> forall id :: id in s.accounts ==> exists k :: 0 <= k < |r| && r[k].id == id
  {
    ListingComplete(s.accounts, 1, s.nextId);
    Listing(s.accounts, 1, s.nextId)
  }

  // ----- The service object, which updates its repository in place -----

  class AccountServiceImpl {
    var accounts: map<int, AccountData>
    var nextId: int

    function State(): StoreState
      reads this
    {
      StoreState(accounts, nextId)
    }

    ghost predicate Valid()
      reads this
    {
      StoreValid(State())
    }

    constructor ()
      ensures Valid() && State() == EmptyStore
    {
      accounts := map[];
      nextId := 1;
    }

    method CreateAccount(req: AccountRequest) returns (r: AccountResponse)
      requires Valid()
      modifies this
      ensures Valid()
      ensures (State(), r) == Create(old(State()), req)
    {
      var account := MapToEntity(req);
      var id := nextId;
      accounts := accounts[id := account];
      nextId := nextId + 1;
      r := MapToResponse(id, account);
    }

    method GetAccountById(id: int) returns (r: Result<AccountResponse, EntityNotFound>)
      ensures r == Get(State(), id)
    {
      if id !in accounts {
        return Err(EntityNotFound(NotFoundMessage(id)));
      }
      r := Ok(MapToResponse(id, accounts[id]));
    }

    /** Reads the repository in ascending id order. */
    method GetAllAccounts() returns (r: seq<AccountResponse>)
      requires Valid()
      ensures r == All(State())
    {
      r := [];
      var id := 1;
      while id < nextId
        invariant 1 <= id <= nextId
        invariant r == Listing(accounts, 1, id)
      {
        if id in accounts {
          r := r + [MapToResponse(id, accounts[id])];
        }
        id := id + 1;
      }
    }

    /** Fetches the entity, overwrites its three data fields, and saves it back. */
    method UpdateAccount(id: int, req: AccountRequest) returns (r: Result<AccountResponse, EntityNotFound>)
      requires Valid()
      modifies this
      ensures Valid()
      ensures (State(), r) == Update(old(State()), id, req)
    {
      if id !in accounts {
        return Err(EntityNotFound(NotFoundMessage(id)));
      }
      var existing := accounts[id];
      existing := existing.(firstName := req.firstName);
      existing := existing.(lastName := req.lastName);
      existing := existing.(email := req.email);
      accounts := accounts[id := existing];
      r := Ok(MapToResponse(id, existing));
    }

    method DeleteAccount(id: int) returns (r: Result<(), EntityNotFound>)
      requires Valid()
      modifies this
      ensures Valid()
      ensures (State(), r) == Delete(old(State()), id)
    {
      if id !in accounts {
        return Err(EntityNotFound(NotFoundMessage(id)));
      }
      accounts := accounts - {id};
      r := Ok(());
    }
  }
}
