/// The administration screen (components/Management.tsx): the six master-data
/// lists, per-user tab permissions, operator accounts, and the restore/import
/// of a backup into the browser's key-value store.
module ManagementPanel {
  import opened Options
  import opened Seqs
  import opened Strings
  import opened Types

  // ----- master-data lists -----

  /** The six lists of `MasterData`, each named by its key. */
  datatype Category = Products | Packagings | Clients | Suppliers | PurchaseCategories | ServiceTypes

  /** `data[category]` */
  function ListOf(data: MasterData, c: Category): seq<string> {
    match c
    case Products => data.products
    case Packagings => data.packagings
    case Clients => data.clients
    case Suppliers => data.suppliers
    case PurchaseCategories => data.purchaseCategories
    case ServiceTypes => data.serviceTypes
  }

  /** `{ ...data, [c]: items }`: that list replaced, the five others kept. */
  function WithList(data: MasterData, c: Category, items: seq<string>): (r: MasterData)
    ensures ListOf(r, c) == items
    ensures forall d :: d != c ==> ListOf(r, d) == ListOf(data, d)
  {
    match c
    case Products => data.(products := items)
    case Packagings => data.(packagings := items)
    case Clients => data.(clients := items)
    case Suppliers => data.(suppliers := items)
    case PurchaseCategories => data.(purchaseCategories := items)
    case ServiceTypes => data.(serviceTypes := items)
  }

  /** What the add button of one list does: nothing, the duplicate alert, or an update. */
  datatype AddOutcome = Ignored | Duplicate | Added(data: MasterData)

  /** The outcome, and the per-list input fields (`newItem`) afterwards. */
  datatype AddResult = AddResult(outcome: AddOutcome, newItem: map<Category, string>)

  /**
    * `addItem`: the typed value, trimmed, is ignored when empty, refused when
    * the list already holds it, and otherwise appended to that list, whose
    * input field is then cleared.
    */
  function AddItem(data: MasterData, newItem: map<Category, string>, category: Category): (r: AddResult)
    requires category in newItem
    ensures Trim(newItem[category]) == [] ==> r == AddResult(Ignored, newItem)
    ensures Trim(newItem[category]) != [] && Trim(newItem[category]) in ListOf(data, category) ==>
      r == AddResult(Duplicate, newItem)
    ensures r.outcome.Added? <==> Trim(newItem[category]) != [] && Trim(newItem[category]) !in ListOf(data, category)
    ensures r.outcome.Added? ==>
      ListOf(r.outcome.data, category) == ListOf(data, category) + [Trim(newItem[category])] &&
      (forall d :: d != category ==> ListOf(r.outcome.data, d) == ListOf(data, d)) &&
      r.newItem == newItem[category := ""]
  {
    var val := Trim(newItem[category]);
    if val == [] then AddResult(Ignored, newItem)
    else if val in ListOf(data, category) then AddResult(Duplicate, newItem)
    else AddResult(Added(WithList(data, category, ListOf(data, category) + [val])), newItem[category := ""])
  }

  /**
    * A list that never held a value twice still does not after an addition,
    * and the value added starts and ends with a visible character.
    */
  lemma AddKeepsListsDistinct(data: MasterData, newItem: map<Category, string>, category: Category)
    requires category in newItem
    requires Distinct(ListOf(data, category))
    ensures var r := AddItem(data, newItem, category);
      r.outcome.Added? ==> Distinct(ListOf(r.outcome.data, category))
    ensures var v := Trim(newItem[category]);
      |v| > 0 ==> !IsJsSpace(v[0]) && !IsJsSpace(v[|v| - 1])
  {
    TrimKeeps(newItem[category]);
    var r := AddItem(data, newItem, category);
    if r.outcome.Added? {
      var s, v := ListOf(data, category), Trim(newItem[category]);
      forall i, j | 0 <= i < j < |s + [v]| ensures (s + [v])[i] != (s + [v])[j] {
        if j == |s| {
          assert (s + [v])[i] == s[i] && s[i] in s;
        }
      }
    }
  }

  /**
    * Pressing the add button again right after an addition does nothing: the
    * input field is empty. Typing the same value again is refused as a duplicate.
    */
  lemma AddTwice(data: MasterData, newItem: map<Category, string>, category: Category)
    requires category in newItem
    requires AddItem(data, newItem, category).outcome.Added?
    ensures var r := AddItem(data, newItem, category);
      AddItem(r.outcome.data, r.newItem, category).outcome == Ignored &&
      AddItem(r.outcome.data, newItem, category).outcome == Duplicate
  {
    var r := AddItem(data, newItem, category);
    assert Trim(r.newItem[category]) == [];
    var s := ListOf(r.outcome.data, category);
    assert s[|s| - 1] == Trim(newItem[category]);
  }

  /**
    * `removeItem`: once confirmed, every occurrence of the item leaves its
    * list and the other values stay in order; the other lists are untouched.
    * Without confirmation nothing changes.
    */
  function RemoveItem(data: MasterData, category: Category, item: string, confirmed: bool): (r: MasterData)
    ensures !confirmed ==> r == data
    ensures confirmed ==> ListOf(r, category) == Keep(ListOf(data, category), IsNot(item))
    ensures confirmed ==> forall x :: x in ListOf(r, category) <==> x in ListOf(data, category) && x != item
    ensures forall d :: d != category ==> ListOf(r, d) == ListOf(data, d)
  {
    if !confirmed then data
    else WithList(data, category, Keep(ListOf(data, category), IsNot(item)))
  }

  /** `i => i !== item` */
  function IsNot(item: string): string -> bool {
    (i: string) => i != item
  }

  /** Removing the value just added gives back the master data as it was. */
  lemma RemoveUndoesAdd(data: MasterData, newItem: map<Category, string>, category: Category)
    requires category in newItem
    requires AddItem(data, newItem, category).outcome.Added?
    requires forall x :: x in ListOf(data, category) ==> x != Trim(newItem[category])
    ensures RemoveItem(AddItem(data, newItem, category).outcome.data, category, Trim(newItem[category]), true) == data
  {
    var v := Trim(newItem[category]);
    var s := ListOf(data, category);
    var p := IsNot(v);
    KeepSnoc(s, v, p);
    KeepAll(s, p);
    var r := RemoveItem(AddItem(data, newItem, category).outcome.data, category, v, true);
    forall d ensures ListOf(r, d) == ListOf(data, d) {
    }
    SameLists(r, data);
  }

  /** Master data is its six lists: two values with the same lists are equal. */
  lemma SameLists(a: MasterData, b: MasterData)
    requires forall d :: ListOf(a, d) == ListOf(b, d)
    ensures a == b
  {
    assert ListOf(a, Products) == ListOf(b, Products);
    assert ListOf(a, Packagings) == ListOf(b, Packagings);
    assert ListOf(a, Clients) == ListOf(b, Clients);
    assert ListOf(a, Suppliers) == ListOf(b, Suppliers);
    assert ListOf(a, PurchaseCategories) == ListOf(b, PurchaseCategories);
    assert ListOf(a, ServiceTypes) == ListOf(b, ServiceTypes);
  }

  // ----- tab permissions -----

  /** `togglePermission`: a granted tab is withdrawn (all its occurrences), a missing one appended. */
  function TogglePermission(tabs: seq<MainTab>, tab: MainTab): (r: seq<MainTab>)
    ensures tab in r <==> tab !in tabs
    ensures forall t :: t != tab ==> (t in r <==> t in tabs)
    ensures tab !in tabs ==> r == tabs + [tab]
  {
    if tab in tabs then Keep(tabs, (t: MainTab) => t != tab) else tabs + [tab]
  }

  /**
    * Toggling the same tab twice grants the same tabs as before; when the tab
    * was missing, the very same list comes back.
    */
  lemma ToggleTwice(tabs: seq<MainTab>, tab: MainTab)
    ensures forall t :: t in TogglePermission(TogglePermission(tabs, tab), tab) <==> t in tabs
    ensures tab !in tabs ==> TogglePermission(TogglePermission(tabs, tab), tab) == tabs
  {
    if tab !in tabs {
      var p := (t: MainTab) => t != tab;
      KeepSnoc(tabs, tab, p);
      KeepAll(tabs, p);
    }
  }

  /** Toggling never lists a tab twice in a list that did not. */
  lemma ToggleKeepsDistinct(tabs: seq<MainTab>, tab: MainTab)
    requires Distinct(tabs)
    ensures Distinct(TogglePermission(tabs, tab))
  {
    if tab in tabs {
      KeepDistinct(tabs, (t: MainTab) => t != tab);
    } else {
      var r := tabs + [tab];
      forall i, j | 0 <= i < j < |r| ensures r[i] != r[j] {
        if j == |tabs| {
          assert r[i] == tabs[i] && tabs[i] in tabs;
        }
      }
    }
  }

  // ----- operator accounts -----

  /** What the new-operator form does: an alert for a missing field or a taken name, or a new account. */
  datatype CreateOutcome = MissingField | UsernameTaken | Created(user: User)

  /** Two user names that agree once lower-cased. */
  predicate SameLogin(a: string, b: string) {
    Lower(a) == Lower(b)
  }

  /**
    * `handleCreateOperator`, with the random id and the clock as parameters:
    * every field must be non-empty and the user name new up to case; the
    * account then gets the lower-cased name, the operator role, the given
    * password and only the production tab.
    */
  function CreateOperator(users: seq<User>, name: string, username: string, password: string,
                          id: string, createdAt: int): (r: CreateOutcome)
    ensures r.MissingField? <==> name == [] || username == [] || password == []
    ensures r.UsernameTaken? <==>
      name != [] && username != [] && password != [] && exists u :: u in users && SameLogin(u.username, username)
    ensures r.Created? ==>
      r.user.id == id && r.user.name == name && r.user.username == Lower(username) &&
      r.user.password == Some(password) && r.user.role == Operator && r.user.createdAt == createdAt &&
      r.user.allowedTabs == [Production]
  {
    if name == [] || username == [] || password == [] then MissingField
    else if exists u :: u in users && SameLogin(u.username, username) then UsernameTaken
    else Created(User(id, name, Lower(username), Some(password), Operator, createdAt, [Production]))
  }

  /** No two accounts whose user names agree up to case. */
  predicate UniqueLogins(users: seq<User>) {
    forall i, j :: 0 <= i < j < |users| ==> !SameLogin(users[i].username, users[j].username)
  }

  /**
    * An account created by the form can be added to the list without two
    * accounts sharing a user name up to case, and it is stored already
    * lower-cased.
    */
  lemma CreatedKeepsLoginsUnique(users: seq<User>, name: string, username: string, password: string,
                                 id: string, createdAt: int)
    requires UniqueLogins(users)
    requires CreateOperator(users, name, username, password, id, createdAt).Created?
    ensures var u := CreateOperator(users, name, username, password, id, createdAt).user;
      UniqueLogins(users + [u]) && Lower(u.username) == u.username
  {
    var u := CreateOperator(users, name, username, password, id, createdAt).user;
    LowerIdempotent(username);
    var all := users + [u];
    forall i, j | 0 <= i < j < |all| ensures !SameLogin(all[i].username, all[j].username) {
      if j == |users| {
        assert all[i] == users[i] && users[i] in users;
      }
    }
  }

  // ----- restore and import -----

  /** Only the application's own keys are restored. */
  const KeyPrefix: string := "prod_"

  /**
    * The store after a backup is written into it: every key of the backup that
    * starts with "prod_" takes the backup's value; every other key keeps its
    * value, and no other key appears.
    */
  function ImportSpec(store: map<string, string>, json: map<string, string>): (r: map<string, string>)
    ensures forall k :: k in json && StartsWith(k, KeyPrefix) ==> k in r && r[k] == json[k]
    ensures forall k :: k in store && !StartsWith(k, KeyPrefix) ==> k in r && r[k] == store[k]
    ensures forall k :: k in r ==> k in store || k in json
  {
    map k | k in store.Keys + json.Keys && (k in store || StartsWith(k, KeyPrefix)) ::
      if k in json && StartsWith(k, KeyPrefix) then json[k] else store[k]
  }

  /** Keys outside the application's prefix are neither added, removed nor changed. */
  lemma ImportKeepsForeignKeys(store: map<string, string>, json: map<string, string>, k: string)
    requires !StartsWith(k, KeyPrefix)
    ensures k in ImportSpec(store, json) <==> k in store
    ensures k in store ==> ImportSpec(store, json)[k] == store[k]
  {
  }

  /** Every prefixed key of the backup ends up holding the backup's value. */
  lemma ImportWritesPrefixed(store: map<string, string>, json: map<string, string>, k: string)
    requires k in json && StartsWith(k, KeyPrefix)
    ensures k in ImportSpec(store, json) && ImportSpec(store, json)[k] == json[k]
  {
  }

  /** Importing the same backup twice is importing it once. */
  lemma ImportIdempotent(store: map<string, string>, json: map<string, string>)
    ensures ImportSpec(ImportSpec(store, json), json) == ImportSpec(store, json)
  {
  }

  /** The browser's key-value store, as far as restore and import touch it. */
  class LocalStore {
    var items: map<string, string>

    constructor (items: map<string, string>)
      ensures this.items == items
    {
      this.items := items;
    }

    /**
      * The restore and import loops: once confirmed, each key of the backup,
      * in `Object.keys` order, is written when it starts with "prod_". The
      * result is `ImportSpec`, whatever the order of the keys.
      */
    method ImportBackup(json: map<string, string>, keys: seq<string>, confirmed: bool)
      requires forall k :: k in keys <==> k in json
      modifies this
      ensures confirmed ==> items == ImportSpec(old(items), json)
      ensures !confirmed ==> items == old(items)
    {
      if !confirmed {
        return;
      }
      ghost var store := items;
      for i := 0 to |keys|
        invariant forall k :: k in items <==> k in store || (k in keys[..i] && StartsWith(k, KeyPrefix))
        invariant forall k :: k in items ==>
          items[k] == if k in keys[..i] && StartsWith(k, KeyPrefix) then json[k] else store[k]
      {
        var key := keys[i];
        assert keys[..i + 1] == keys[..i] + [key];
        if StartsWith(key, KeyPrefix) {
          items := items[key := json[key]];
        }
      }
      assert keys[..|keys|] == keys;
      assert items == ImportSpec(store, json);
    }
  }
}
