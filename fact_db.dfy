/** The in-memory fact table of app/db.py and the allocation of fresh fact ids.

    The table is a module-level dictionary from integer id to fact text.
    app/db.py only reads it, so it is modelled as an immutable map value. */
module FactDb {

  /** The fact table: fact id to fact text. */
  type Table = map<int, string>

  /** The table the module is seeded with: ids 0 to 9. */
  const SEED: Table := map[
    0 := "Chuck Norris a déjà compté jusqu'à l'infini. Deux fois.",
    1 := "Google, c'est le seul endroit où tu peux taper Chuck Norris...",
    2 := "Certaines personnes portent un pyjama Superman. Superman porte un pyjama Chuck Norris.",
    3 := "Chuck Norris donne fréquemment du sang à la Croix-Rouge. Mais jamais le sien.",
    4 := "Chuck Norris et Superman ont fait un bras de fer, le perdant devait mettre son slip par dessus son pantalon.",
    5 := "Chuck norris se souvient très bien de son futur",
    6 := "Peter Parker a été mordu par une araignée, Clark Kent a été mordu par Chuck Norris",
    7 := "Chuck Norris peut écrire un traitement de texte avec la souris.",
    8 := "Chuck Norris peut faire des ronds avec une equerre",
    9 := " La seule chose qui arrive à la cheville de Chuck Norris... c'est sa chaussette."
  ]

  /** A non-empty set of ids has an element. */
  lemma NonEmptyHasElement(keys: set<int>)
    requires keys != {}
    ensures exists k :: k in keys
  {
    // The case split makes the verifier use set extensionality, which is what
    // lets `var x :| x in keys` in LargestWitness go through.
    if forall k :: k !in keys {
    }
  }

  /** m is the largest id of keys. */
  predicate IsLargest(m: int, keys: set<int>) {
    m in keys && forall k :: k in keys ==> k <= m
  }

  /** Every non-empty finite set of ids has a largest element, found by
      induction on the set. */
  lemma {:induction false} LargestWitness(keys: set<int>) returns (m: int)
    requires keys != {}
    ensures IsLargest(m, keys)
  {
    NonEmptyHasElement(keys);
    var x :| x in keys;
    if keys == {x} {
      m := x;
    } else {
      var rest := keys - {x};
      assert keys == rest + {x};
      var r := LargestWitness(rest);
      m := if x <= r then r else x;
    }
  }

  lemma LargestExists(keys: set<int>)
    requires keys != {}
    ensures exists m :: IsLargest(m, keys)
  {
    var m := LargestWitness(keys);
  }

  /** Python's `max` over a collection of ids; it is only defined on a
      non-empty collection (on an empty one `max` raises). */
  function Largest(keys: set<int>): (m: int)
    requires keys != {}
    ensures m in keys
    ensures forall k :: k in keys ==> k <= m
  {
    LargestExists(keys);
    var m :| IsLargest(m, keys);
    m
  }

  /** get_next_id: the id of the next inserted fact, one more than the
      largest id in the table. */
  function NextId(db: Table): (id: int)
    requires db != map[]
    ensures id - 1 in db
    ensures forall k :: k in db ==> k < id
    ensures id !in db
  {
    Largest(db.Keys) + 1
  }

  /** The next id is determined by the key set alone: the fact texts play no part. */
  lemma NextIdDependsOnlyOnKeys(a: Table, b: Table)
    requires a != map[] && a.Keys == b.Keys
    ensures b != map[] && NextId(a) == NextId(b)
  {
    assert NextId(a) - 1 in b;
  }

  /** The next id is the unique value exactly one above the largest key. */
  lemma NextIdIsLargestPlusOne(db: Table, k: int)
    requires k in db && forall j :: j in db ==> j <= k
    ensures NextId(db) == k + 1
  {
  }

  lemma TenIds()
    ensures |{0, 1, 2, 3, 4, 5, 6, 7, 8, 9}| == 10
  {
  }

  lemma SeedKeys()
    ensures SEED.Keys == {0, 1, 2, 3, 4, 5, 6, 7, 8, 9}
  {
  }

  lemma SeedSize()
    ensures |SEED| == 10
  {
    SeedKeys();
    TenIds();
    assert |SEED| == |SEED.Keys|;
  }

  lemma SeedNextId()
    ensures SEED != map[] && NextId(SEED) == 10
  {
    SeedKeys();
    assert 9 in SEED;
    NextIdIsLargestPlusOne(SEED, 9);
  }

  /** The seeded table holds exactly the ten ids 0..9, so the first id handed out is 10. */
  lemma SeedIds()
    ensures SEED.Keys == {0, 1, 2, 3, 4, 5, 6, 7, 8, 9}
    ensures |SEED| == 10
    ensures NextId(SEED) == 10
  {
    SeedKeys();
    SeedSize();
    SeedNextId();
  }

  /** Seeded id 1 holds the Google fact. */
  lemma SeedFactOne()
    ensures 1 in SEED
    ensures SEED[1] == "Google, c'est le seul endroit où tu peux taper Chuck Norris..."
  {
  }

  /** Inserting a fact under the next id raises the next id by exactly one. */
  lemma NextIdAfterInsert(db: Table, text: string)
    requires db != map[]
    ensures NextId(db[NextId(db) := text]) == NextId(db) + 1
  {
    NextIdIsLargestPlusOne(db[NextId(db) := text], NextId(db));
  }

  /** Ids are not held by a counter: removing the fact that was just
      inserted under the next id makes the same id the next one again. */
  lemma InsertThenRemoveReusesId(db: Table, text: string)
    requires db != map[]
    ensures var id := NextId(db); db[id := text] - {id} != map[] && NextId(db[id := text] - {id}) == id
  {
    var id := NextId(db);
    assert db[id := text] - {id} == db;
  }

  /** Removing the largest id k never raises the next id above k, and k is
      handed out again exactly when k - 1 is still in the table. */
  lemma NextIdAfterRemovingLargest(db: Table, k: int)
    requires k in db && forall j :: j in db ==> j <= k
    requires db - {k} != map[]
    ensures NextId(db - {k}) <= k
    ensures NextId(db - {k}) == k <==> k - 1 in db
  {
    var rest := db - {k};
    assert NextId(rest) - 1 in db;
    if k - 1 in db {
      NextIdIsLargestPlusOne(rest, k - 1);
    }
  }

  /** In the seeded table, removing fact 9 makes 9 the next id again. */
  lemma SeedReusesLargestId()
    ensures SEED - {9} != map[] && NextId(SEED - {9}) == 9
  {
    SeedIds();
    NextIdAfterRemovingLargest(SEED, 9);
  }
}
