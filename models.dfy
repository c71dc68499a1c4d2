/**
 * The memory state enumeration and the category bookkeeping that runs after a memory is
 * stored: categories are looked up by name or created, and a memory-category link is added
 * when it is missing.
 */
module Models {
  import opened Wrappers

  /** The four states a memory can be in. */
  datatype MemoryState = Active | Paused | Archived | Deleted {
    /** The value stored in the database and sent over the API. */
    function Value(): (v: string)
      ensures v != []
    {
      match this
      case Active => "active"
      case Paused => "paused"
      case Archived => "archived"
      case Deleted => "deleted"
    }
  }

  /** `MemoryState(value)`: `None` where the enum lookup raises ValueError. */
  function StateFromValue(v: string): (r: Option<MemoryState>)
    ensures r.Some? ==> r.value.Value() == v
  {
    if v == "active" then Some(Active)
    else if v == "paused" then Some(Paused)
    else if v == "archived" then Some(Archived)
    else if v == "deleted" then Some(Deleted)
    else None
  }

  /** Every state round-trips through its stored value, and the four values are distinct. */
  lemma StateValueRoundTrip(s: MemoryState)
    ensures StateFromValue(s.Value()) == Some(s)
  {
  }

  lemma StateValuesDistinct(s: MemoryState, t: MemoryState)
    ensures s.Value() == t.Value() <==> s == t
  {
    StateValueRoundTrip(s);
    StateValueRoundTrip(t);
  }

  /* ---------------------------------------------------------------- categories */

  /** A category row: its generated id and its description. */
  datatype Category = Category(id: nat, description: string)

  /** A row of the memory-category association table. */
  datatype Link = Link(memoryId: string, categoryId: nat)

  /** Category rows by their unique name, the association table, and the next fresh id
      (the database generates a new UUID for every row; the model counts). */
  datatype Store = Store(categories: map<string, Category>, links: set<Link>, nextId: nat)

  /** Ids are unique and below the next fresh id, and every link names a stored category. */
  predicate ValidStore(s: Store) {
    && (forall n :: n in s.categories ==> s.categories[n].id < s.nextId)
    && (forall n, m :: n in s.categories && m in s.categories && n != m ==>
          s.categories[n].id != s.categories[m].id)
    && (forall l :: l in s.links ==> exists n :: n in s.categories && s.categories[n].id == l.categoryId)
  }

  function AutoDescription(name: string): string {
    "Automatically created category for " + name
  }

  /** One iteration: get or create the category named `name`, then link it if unlinked. */
  function AddCategory(s: Store, memoryId: string, name: string): (r: Store)
    ensures name in r.categories && Link(memoryId, r.categories[name].id) in r.links
    ensures forall n :: n in s.categories ==> n in r.categories && r.categories[n] == s.categories[n]
    ensures r.categories.Keys == s.categories.Keys + {name}
    ensures r.links == s.links + {Link(memoryId, r.categories[name].id)}
  {
    var (categories, nextId) :=
      if name in s.categories then (s.categories, s.nextId)
      else (s.categories[name := Category(s.nextId, AutoDescription(name))], s.nextId + 1);
    var link := Link(memoryId, categories[name].id);
    Store(categories, if link in s.links then s.links else s.links + {link}, nextId)
  }

  /** The whole loop over the category names, in order. */
  function AddCategories(s: Store, memoryId: string, names: seq<string>): (r: Store)
    decreases |names|
  {
    if names == [] then s
    else AddCategories(AddCategory(s, memoryId, names[0]), memoryId, names[1..])
  }

  lemma {:induction false} AddCategoriesSnoc(s: Store, memoryId: string, names: seq<string>, name: string)
    ensures AddCategories(s, memoryId, names + [name]) == AddCategory(AddCategories(s, memoryId, names), memoryId, name)
    decreases |names|
  {
    if names != [] {
      assert (names + [name])[1..] == names[1..] + [name];
      AddCategoriesSnoc(AddCategory(s, memoryId, names[0]), memoryId, names[1..], name);
    }
  }

  /** The links from `memoryId` to the categories named in `names`. */
  function LinksTo(categories: map<string, Category>, memoryId: string, names: seq<string>): set<Link> {
    set n | n in names && n in categories :: Link(memoryId, categories[n].id)
  }

  /** Existing categories keep their rows and the listed names are added, nothing else. */
  lemma {:induction false} AddCategoriesKeys(s: Store, memoryId: string, names: seq<string>)
    ensures var r := AddCategories(s, memoryId, names);
      && r.categories.Keys == s.categories.Keys + (set n | n in names)
      && (forall n :: n in s.categories ==> r.categories[n] == s.categories[n])
    decreases |names|
  {
    if names != [] {
      AddCategoriesKeys(AddCategory(s, memoryId, names[0]), memoryId, names[1..]);
      assert (set n | n in names) == {names[0]} + (set n | n in names[1..]) by {
        forall n | n in names
          ensures n == names[0] || n in names[1..]
        {
          var i :| 0 <= i < |names| && names[i] == n;
          if i > 0 {
            assert names[1..][i - 1] == n;
          }
        }
      }
    }
  }

  /** Afterwards every listed name has a category linked to the memory, and the only links added
      are those. */
  lemma {:induction false} AddCategoriesLinks(s: Store, memoryId: string, names: seq<string>)
    ensures var r := AddCategories(s, memoryId, names);
      && (forall n :: n in names ==> n in r.categories && Link(memoryId, r.categories[n].id) in r.links)
      && r.links == s.links + LinksTo(r.categories, memoryId, names)
    decreases |names|
  {
    if names != [] {
      var s1 := AddCategory(s, memoryId, names[0]);
      var r := AddCategories(s, memoryId, names);
      AddCategoriesLinks(s1, memoryId, names[1..]);
      AddCategoriesKeys(s1, memoryId, names[1..]);
      assert r.categories[names[0]] == s1.categories[names[0]];
      forall n | n in names
        ensures n == names[0] || n in names[1..]
      {
        var i :| 0 <= i < |names| && names[i] == n;
        if i > 0 {
          assert names[1..][i - 1] == n;
        }
      }
      assert LinksTo(r.categories, memoryId, names)
        == {Link(memoryId, s1.categories[names[0]].id)} + LinksTo(r.categories, memoryId, names[1..]);
    }
  }

  /** One iteration keeps ids unique and fresh, and links only to stored categories. */
  lemma AddCategoryValid(s: Store, memoryId: string, name: string)
    requires ValidStore(s)
    ensures ValidStore(AddCategory(s, memoryId, name))
  {
    var r := AddCategory(s, memoryId, name);
    forall l | l in r.links
      ensures exists n :: n in r.categories && r.categories[n].id == l.categoryId
    {
      if l in s.links {
        var n :| n in s.categories && s.categories[n].id == l.categoryId;
        assert r.categories[n].id == l.categoryId;
      } else {
        assert r.categories[name].id == l.categoryId;
      }
    }
  }

  /** The loop keeps ids unique and fresh, and links only to stored categories. */
  lemma {:induction false} AddCategoriesValid(s: Store, memoryId: string, names: seq<string>)
    requires ValidStore(s)
    ensures ValidStore(AddCategories(s, memoryId, names))
    decreases |names|
  {
    if names != [] {
      AddCategoryValid(s, memoryId, names[0]);
      AddCategoriesValid(AddCategory(s, memoryId, names[0]), memoryId, names[1..]);
    }
  }

  /** Running the categorisation again with the same names changes nothing. */
  lemma {:induction false} AddCategoriesIdempotent(s: Store, memoryId: string, names: seq<string>)
    ensures var r := AddCategories(s, memoryId, names);
      AddCategories(r, memoryId, names) == r
  {
    var r := AddCategories(s, memoryId, names);
    AddCategoriesLinks(s, memoryId, names);
    AlreadyPresent(r, memoryId, names);
  }

  /** When every name already has a category linked to the memory, the loop is a no-op. */
  lemma {:induction false} AlreadyPresent(s: Store, memoryId: string, names: seq<string>)
    requires forall n :: n in names ==> n in s.categories && Link(memoryId, s.categories[n].id) in s.links
    ensures AddCategories(s, memoryId, names) == s
    decreases |names|
  {
    if names != [] {
      assert AddCategory(s, memoryId, names[0]) == s;
      AlreadyPresent(s, memoryId, names[1..]);
    }
  }

  /** The category tables held by a database session. */
  class CategoryDb {
    var categories: map<string, Category>
    var links: set<Link>
    var nextId: nat

    function State(): Store
      reads this
    {
      Store(categories, links, nextId)
    }

    constructor()
      ensures State() == Store(map[], {}, 0)
    {
      categories := map[];
      links := {};
      nextId := 0;
    }

    /** `categorize_memory`: `names` is what the category classifier returned, or the error it
        raised, which rolls everything back. */
    method Categorize(memoryId: string, names: Result<seq<string>, string>)
      modifies this
      ensures names.Err? ==> State() == old(State())
      ensures names.Ok? ==> State() == AddCategories(old(State()), memoryId, names.value)
    {
      if names.Err? {
        return;
      }
      var list := names.value;
      var i := 0;
      while i < |list|
        invariant 0 <= i <= |list|
        invariant State() == AddCategories(old(State()), memoryId, list[..i])
      {
        var name := list[i];
        var id: nat;
        if name in categories {
          id := categories[name].id;
        } else {
          id := nextId;
          categories := categories[name := Category(id, AutoDescription(name))];
          nextId := nextId + 1;
        }
        var link := Link(memoryId, id);
        if link !in links {
          links := links + {link};
        }
        AddCategoriesSnoc(old(State()), memoryId, list[..i], name);
        assert list[..i + 1] == list[..i] + [name];
        i := i + 1;
      }
      assert list[..i] == list;
    }
  }
}
