/**
 * db/schema.ts: the `categories` and `products` tables, their CHECK
 * constraints, primary keys and the cascading foreign key, enforced because
 * the connection turns `foreign_keys` on. The store is a class; each method
 * is one SQL statement as SQLite executes it: CHECK constraints first (in
 * declaration order), then the primary key, then foreign keys at the end of
 * the statement. A failing statement changes nothing.
 *
 * `fault` is a failure the environment may inject into any statement
 * (a lock held elsewhere, a full disk, ...).
 */
module Schema {
  import opened Wrappers
  import opened Text
  import opened TryCatch

  datatype Product = Product(id: string, name: string, price: int, categoryName: string)

  /** SQLite's `length` of a text value: the number of characters before the first NUL. */
  function SqlLength(s: string): (n: nat)
    ensures n <= |s|
  {
    if s == [] || s[0] == '\0' then 0 else 1 + SqlLength(s[1..])
  }

  /** The count stops exactly at the first NUL, or at the end when there is none. */
  lemma {:induction false} SqlLengthStopsAtNul(s: string)
    ensures forall i | 0 <= i < SqlLength(s) :: s[i] != '\0'
    ensures SqlLength(s) < |s| ==> s[SqlLength(s)] == '\0'
  {
    if s != [] && s[0] != '\0' {
      SqlLengthStopsAtNul(s[1..]);
      assert forall i | 1 <= i < SqlLength(s) :: s[i] == s[1..][i - 1];
    }
  }

  /**
   * The CHECK `length(trim(x)) >= 1`, where SQLite's one-argument trim strips
   * spaces only and `length` stops at the first NUL: past the leading spaces
   * there is a character, and it is not NUL.
   */
  predicate SqlNonEmpty(s: string) {
    s != [] && if SqlBlank(s[0]) then SqlNonEmpty(s[1..]) else s[0] != '\0'
  }

  lemma {:induction false} SqlNonEmptyAfterLeadingSpaces(s: string)
    ensures SqlNonEmpty(s) <==> TrimStart(SqlBlank, s) != [] && TrimStart(SqlBlank, s)[0] != '\0'
  {
    if s != [] && SqlBlank(s[0]) {
      SqlNonEmptyAfterLeadingSpaces(s[1..]);
    }
  }

  /** Trimming the end of a string that starts with a non-blank keeps that first character. */
  lemma TrimEndKeepsHead(t: string)
    requires t != [] && !SqlBlank(t[0])
    ensures TrimEnd(SqlBlank, t) != [] && TrimEnd(SqlBlank, t)[0] == t[0]
  {
  }

  lemma SqlNonEmptyIsTrimmedHead(s: string)
    ensures SqlNonEmpty(s) <==> Trim(SqlBlank, s) != [] && Trim(SqlBlank, s)[0] != '\0'
  {
    SqlNonEmptyAfterLeadingSpaces(s);
    var t := TrimStart(SqlBlank, s);
    if t != [] {
      TrimEndKeepsHead(t);
    }
    assert Trim(SqlBlank, s) == TrimEnd(SqlBlank, t);
  }

  /** `SqlNonEmpty` is the CHECK as SQLite evaluates it, and it implies the value is not all spaces. */
  lemma SqlNonEmptyIsTrimCheck(s: string)
    ensures SqlNonEmpty(s) <==> SqlLength(Trim(SqlBlank, s)) >= 1
    ensures SqlNonEmpty(s) <==> Trim(SqlBlank, s) != [] && Trim(SqlBlank, s)[0] != '\0'
    ensures SqlNonEmpty(s) ==> !AllBlank(SqlBlank, s)
  {
    SqlNonEmptyIsTrimmedHead(s);
    var r := Trim(SqlBlank, s);
    assert SqlLength(r) >= 1 <==> r != [] && r[0] != '\0';
    TrimEmptyIff(SqlBlank, s);
  }

  /** A NUL hides the rest of the value from the CHECK: "\0" and " \0abc" fail it, "a\0" passes. */
  lemma NulFailsCheck()
    ensures !SqlNonEmpty("\0") && !SqlNonEmpty(" \0abc") && SqlNonEmpty("a\0")
  {
    TrimTight(SqlBlank, "\0");
    TrimTight(SqlBlank, "a\0");
    TrimPadded(SqlBlank, " ", "\0abc", "");
    assert " " + "\0abc" + "" == " \0abc";
  }

  /**
   * A string left non-empty by the JavaScript trim is its own SQLite trim, so it
   * passes the CHECK exactly when it does not start with NUL, which the
   * JavaScript trim keeps.
   */
  lemma JsTrimmedPassesCheckIff(s: string)
    requires Trim(JsBlank, s) != []
    ensures SqlNonEmpty(Trim(JsBlank, s)) <==> Trim(JsBlank, s)[0] != '\0'
  {
    JsTrimmedIsSqlTight(s);
  }

  /** The four CHECK constraints of the products table. */
  predicate ProductRowOk(p: Product) {
    SqlNonEmpty(p.id) && SqlNonEmpty(p.name) && SqlNonEmpty(p.categoryName) && p.price >= 0
  }

  /** The first CHECK constraint of the products table, in declaration order, that `p` violates. */
  function FailedProductCheck(p: Product): (r: Option<string>)
    ensures r.None? <==> ProductRowOk(p)
  {
    if !SqlNonEmpty(p.id) then Some("products_id_not_empty")
    else if !SqlNonEmpty(p.name) then Some("products_name_not_empty")
    else if !SqlNonEmpty(p.categoryName) then Some("products_category_name_not_empty")
    else if p.price < 0 then Some("products_price_non_negative")
    else None
  }

  // The errors better-sqlite3 raises for constraint violations: SQLite's
  // "<kind> constraint failed" message, with a detail for CHECK and UNIQUE,
  // and the extended result code.

  function ConstraintMessage(kind: string, detail: string): string {
    kind + " constraint failed" + detail
  }

  function CheckError(constraint: string): Error {
    Error(ConstraintMessage("CHECK", ": " + constraint), Some("SQLITE_CONSTRAINT_CHECK"))
  }

  const ForeignKeyError := Error(ConstraintMessage("FOREIGN KEY", ""), Some("SQLITE_CONSTRAINT_FOREIGNKEY"))
  const ProductIdTaken := Error(ConstraintMessage("UNIQUE", ": products.id"), Some("SQLITE_CONSTRAINT_PRIMARYKEY"))
  const CategoryNameTaken := Error(ConstraintMessage("UNIQUE", ": categories.name"), Some("SQLITE_CONSTRAINT_PRIMARYKEY"))

  /** A constraint message names its kind together with "constraint failed". */
  lemma ConstraintMessageNamesKind(kind: string, detail: string)
    ensures Contains(ConstraintMessage(kind, detail), kind + " constraint failed")
  {
    assert ConstraintMessage(kind, detail) == "" + (kind + " constraint failed") + detail;
    ContainsPiece("", kind + " constraint failed", detail);
  }

  /** The characters of a constraint message are those of its kind, its detail and the fixed words. */
  lemma ConstraintMessageChar(kind: string, detail: string, c: char)
    requires c !in kind && c !in detail && c !in " constraint failed"
    ensures c !in ConstraintMessage(kind, detail)
  {
  }

  /** Characters the fixed words " constraint failed" do not have. */
  lemma FixedWordsLack()
    ensures var w := " constraint failed";
      'b' !in w && '-' !in w && 'q' !in w && 'p' !in w && 'H' !in w && 'F' !in w
  {
    var w := " constraint failed";
    forall k | 0 <= k < |w|
      ensures w[k] != 'b' && w[k] != '-' && w[k] != 'q' && w[k] != 'p' && w[k] != 'H' && w[k] != 'F'
    { }
  }

  /**
   * The lower case of a constraint message, as sqliteToHttpError inspects it:
   * it still reads "constraint failed" and the lowered kind.
   */
  lemma ConstraintMessageLowered(kind: string, detail: string)
    ensures ToLower(ConstraintMessage(kind, detail)) == ConstraintMessage(ToLower(kind), ToLower(detail))
    ensures Contains(ToLower(ConstraintMessage(kind, detail)), "constraint failed")
    ensures Contains(ToLower(ConstraintMessage(kind, detail)), ToLower(kind))
  {
    ToLowerAppend(kind + " constraint failed", detail);
    ToLowerAppend(kind, " constraint failed");
    ToLowerOfLower(" constraint failed");
    var l := ConstraintMessage(ToLower(kind), ToLower(detail));
    assert " constraint failed" == " " + "constraint failed";
    assert l == (ToLower(kind) + " ") + "constraint failed" + ToLower(detail);
    ContainsPiece(ToLower(kind) + " ", "constraint failed", ToLower(detail));
    assert l == "" + ToLower(kind) + (" constraint failed" + ToLower(detail));
    ContainsPiece("", ToLower(kind), " constraint failed" + ToLower(detail));
  }

  lemma ForeignKeyWordsLowered()
    ensures ToLower("FOREIGN KEY") == "foreign key"
  {
    var l := ToLower("FOREIGN KEY");
    forall k | 0 <= k < |l| ensures l[k] == "foreign key"[k] { }
  }

  lemma UniqueWordLowered()
    ensures ToLower("UNIQUE") == "unique"
  {
    var l := ToLower("UNIQUE");
    forall k | 0 <= k < |l| ensures l[k] == "unique"[k] { }
  }

  /** A statement's result as the thunk passed to `tryCatch` ends: a SqliteError is thrown as it is. */
  function Executed<T>(r: Result<T, Error>): (o: Outcome<T>)
    ensures TryCatch.TryCatch(o).error == if r.Failure? then Some(r.error) else None
    ensures r.Success? ==> TryCatch.TryCatch(o).value == Some(r.value)
  {
    match r
    case Success(v) => Returned(v)
    case Failure(e) => Threw(ErrorInstance(e))
  }

  /** The distinct ids of `ids` that are keys of the table. */
  function MatchedIds(ids: seq<string>, keys: set<string>): set<string> {
    set id | id in ids && id in keys
  }

  /** A statement cannot touch more distinct rows than it was given ids. */
  lemma {:induction false} MatchedAtMostGiven(ids: seq<string>, keys: set<string>)
    ensures |MatchedIds(ids, keys)| <= |ids|
  {
    if ids != [] {
      var last := ids[|ids| - 1];
      var front := ids[..|ids| - 1];
      assert ids == front + [last];
      MatchedAtMostGiven(front, keys);
      assert MatchedIds(ids, keys) <= MatchedIds(front, keys) + {last};
      SubsetCard(MatchedIds(ids, keys), MatchedIds(front, keys) + {last});
    }
  }

  lemma SubsetCard<T>(a: set<T>, b: set<T>)
    requires a <= b
    ensures |a| <= |b|
  {
    assert b == a + (b - a);
  }

  /** `UPDATE products SET category_name = cat WHERE id IN ids`, as a value. */
  function Recategorised(ps: map<string, Product>, ids: seq<string>, cat: string): (r: map<string, Product>)
    ensures r.Keys == ps.Keys
  {
    map id | id in ps :: if id in ids then ps[id].(categoryName := cat) else ps[id]
  }

  /** `DELETE FROM products WHERE id IN ids`, as a value. */
  function WithoutIds(ps: map<string, Product>, ids: seq<string>): (r: map<string, Product>)
    ensures r.Keys == ps.Keys - (set id | id in ids)
  {
    map id | id in ps && id !in ids :: ps[id]
  }

  /** What the cascade on `products.category_name` leaves when a category goes. */
  function WithoutCategory(ps: map<string, Product>, name: string): map<string, Product> {
    map id | id in ps && ps[id].categoryName != name :: ps[id]
  }

  /** The cascade deletes exactly the products filed under the category and keeps the rest as they were. */
  lemma CascadeRemovesExactlyReferencing(ps: map<string, Product>, name: string, id: string)
    requires id in ps
    ensures id in WithoutCategory(ps, name) <==> ps[id].categoryName != name
    ensures id in WithoutCategory(ps, name) ==> WithoutCategory(ps, name)[id] == ps[id]
  {
  }

  /**
   * The table definitions as an invariant: every stored name passes its CHECK,
   * every product is keyed by its own id (primary keys are unique by
   * construction) and refers to an existing category.
   */
  ghost predicate Consistent(cats: set<string>, ps: map<string, Product>) {
    && (forall c | c in cats :: SqlNonEmpty(c))
    && (forall id | id in ps :: ps[id].id == id && ProductRowOk(ps[id]) && ps[id].categoryName in cats)
  }

  lemma RecategorisedConsistent(cats: set<string>, ps: map<string, Product>, ids: seq<string>, cat: string)
    requires Consistent(cats, ps) && SqlNonEmpty(cat) && cat in cats
    ensures Consistent(cats, Recategorised(ps, ids, cat))
  {
    var qs := Recategorised(ps, ids, cat);
    forall id | id in qs
      ensures qs[id].id == id && ProductRowOk(qs[id]) && qs[id].categoryName in cats
    {
      assert id in ps;
    }
  }

  lemma RecategorisedStep(ps: map<string, Product>, ids: seq<string>, id: string, cat: string)
    requires id in ps
    ensures Recategorised(ps, ids + [id], cat) == Recategorised(ps, ids, cat)[id := ps[id].(categoryName := cat)]
  {
    var l := Recategorised(ps, ids + [id], cat);
    var r := Recategorised(ps, ids, cat)[id := ps[id].(categoryName := cat)];
    assert l.Keys == r.Keys;
    forall k | k in l ensures l[k] == r[k] {
      assert k in ids + [id] <==> k in ids || k == id;
    }
  }

  lemma RecategorisedSkip(ps: map<string, Product>, ids: seq<string>, id: string, cat: string)
    requires id !in ps
    ensures Recategorised(ps, ids + [id], cat) == Recategorised(ps, ids, cat)
  {
    var l := Recategorised(ps, ids + [id], cat);
    var r := Recategorised(ps, ids, cat);
    forall k | k in l ensures l[k] == r[k] {
      assert k in ids + [id] <==> k in ids || k == id;
    }
  }

  lemma RecategorisedNoMatch(ps: map<string, Product>, ids: seq<string>, cat: string)
    requires MatchedIds(ids, ps.Keys) == {}
    ensures Recategorised(ps, ids, cat) == ps
  {
    forall k | k in ps ensures k !in ids {
      assert k !in MatchedIds(ids, ps.Keys);
    }
  }

  lemma WithoutIdsStep(ps: map<string, Product>, ids: seq<string>, id: string)
    ensures WithoutIds(ps, ids + [id]) == WithoutIds(ps, ids) - {id}
  {
    var l := WithoutIds(ps, ids + [id]);
    var r := WithoutIds(ps, ids) - {id};
    forall k ensures k in l <==> k in r {
      assert k in ids + [id] <==> k in ids || k == id;
    }
    assert l.Keys == r.Keys;
  }

  lemma MatchedStep(ids: seq<string>, keys: set<string>, id: string)
    ensures MatchedIds(ids + [id], keys) == MatchedIds(ids, keys) + (if id in keys then {id} else {})
  {
    forall k ensures k in ids + [id] <==> k in ids || k == id {
    }
  }

  /** One step of the DELETE loop: the next id leaves the table, and counts when it was still there. */
  lemma RemoveRowStep(ps: map<string, Product>, ids: seq<string>, i: nat, current: map<string, Product>)
    requires i < |ids| && current == WithoutIds(ps, ids[..i])
    ensures WithoutIds(ps, ids[..i + 1]) == current - {ids[i]}
    ensures |MatchedIds(ids[..i + 1], ps.Keys)| == |MatchedIds(ids[..i], ps.Keys)| + (if ids[i] in current then 1 else 0)
  {
    var id := ids[i];
    assert ids[..i + 1] == ids[..i] + [id];
    WithoutIdsStep(ps, ids[..i], id);
    MatchedStep(ids[..i], ps.Keys, id);
    if id in current {
      assert id !in MatchedIds(ids[..i], ps.Keys);
    } else if id in ps {
      assert id in ids[..i];
      assert MatchedIds(ids[..i], ps.Keys) + {id} == MatchedIds(ids[..i], ps.Keys);
    }
  }

  lemma WithoutIdsConsistent(cats: set<string>, ps: map<string, Product>, ids: seq<string>)
    requires Consistent(cats, ps)
    ensures Consistent(cats, WithoutIds(ps, ids))
  {
  }

  lemma WithoutCategoryConsistent(cats: set<string>, ps: map<string, Product>, name: string)
    requires Consistent(cats, ps)
    ensures Consistent(cats - {name}, WithoutCategory(ps, name))
  {
  }

  class Database {
    var categories: set<string>
    var products: map<string, Product>

    /** The store holds tables that satisfy their definitions. */
    ghost predicate Valid()
      reads this
    {
      Consistent(categories, products)
    }

    constructor ()
      ensures Valid() && categories == {} && products == map[]
    {
      categories := {};
      products := map[];
    }

    /** `SELECT * FROM categories`. */
    method SelectCategories(fault: Option<Error>) returns (r: Result<set<string>, Error>)
      ensures fault.Some? ==> r == Failure(fault.value)
      ensures fault.None? ==> r == Success(categories)
    {
      if fault.Some? {
        return Failure(fault.value);
      }
      return Success(categories);
    }

    /** `SELECT * FROM products`: the rows, in no promised order. */
    method SelectProducts(fault: Option<Error>) returns (r: Result<set<Product>, Error>)
      ensures fault.Some? ==> r == Failure(fault.value)
      ensures fault.None? ==> r == Success(products.Values)
    {
      if fault.Some? {
        return Failure(fault.value);
      }
      return Success(products.Values);
    }

    /**
     * `INSERT INTO categories VALUES (name) ON CONFLICT DO NOTHING RETURNING *`:
     * the inserted row, or no row when the name is already taken.
     */
    method InsertCategory(name: string, fault: Option<Error>) returns (r: Result<Option<string>, Error>)
      requires Valid()
      modifies this
      ensures Valid()
      ensures fault.Some? ==> r == Failure(fault.value) && unchanged(this)
      ensures fault.None? && !SqlNonEmpty(name) ==>
        r == Failure(CheckError("categories_name_not_empty")) && unchanged(this)
      ensures fault.None? && SqlNonEmpty(name) && name in old(categories) ==>
        r == Success(None) && unchanged(this)
      ensures fault.None? && SqlNonEmpty(name) && name !in old(categories) ==>
        && r == Success(Some(name))
        && categories == old(categories) + {name} && products == old(products)
    {
      if fault.Some? {
        return Failure(fault.value);
      }
      if !SqlNonEmpty(name) {
        return Failure(CheckError("categories_name_not_empty"));
      }
      if name in categories {
        return Success(None);
      }
      categories := categories + {name};
      return Success(Some(name));
    }

    /** `INSERT INTO products VALUES (...) RETURNING *`. */
    method InsertProduct(p: Product, fault: Option<Error>) returns (r: Result<Product, Error>)
      requires Valid()
      modifies this
      ensures Valid()
      ensures r.Failure? ==> unchanged(this)
      ensures fault.Some? ==> r == Failure(fault.value)
      ensures fault.None? && FailedProductCheck(p).Some? ==> r == Failure(CheckError(FailedProductCheck(p).value))
      ensures fault.None? && ProductRowOk(p) && p.id in old(products) ==> r == Failure(ProductIdTaken)
      ensures fault.None? && ProductRowOk(p) && p.id !in old(products) && p.categoryName !in categories ==>
        r == Failure(ForeignKeyError)
      ensures fault.None? && ProductRowOk(p) && p.id !in old(products) && p.categoryName in categories ==>
        && r == Success(p)
        && products == old(products)[p.id := p] && categories == old(categories)
    {
      if fault.Some? {
        return Failure(fault.value);
      }
      var failed := FailedProductCheck(p);
      if failed.Some? {
        return Failure(CheckError(failed.value));
      }
      if p.id in products {
        return Failure(ProductIdTaken);
      }
      if p.categoryName !in categories {
        return Failure(ForeignKeyError);
      }
      products := products[p.id := p];
      return Success(p);
    }

    /**
     * `UPDATE products SET category_name = cat WHERE id IN ids`: the number of
     * rows changed, which is the number of distinct given ids that are stored.
     * The constraints are checked on changed rows only, so a statement that
     * matches nothing succeeds with 0 whatever `cat` is.
     */
    method UpdateCategoryWhereIdIn(ids: seq<string>, cat: string, fault: Option<Error>) returns (r: Result<nat, Error>)
      requires Valid()
      modifies this
      ensures Valid()
      ensures r.Failure? ==> unchanged(this)
      ensures fault.Some? ==> r == Failure(fault.value)
      ensures fault.None? && MatchedIds(ids, old(products).Keys) == {} ==> r == Success(0) && unchanged(this)
      ensures fault.None? && MatchedIds(ids, old(products).Keys) != {} && !SqlNonEmpty(cat) ==>
        r == Failure(CheckError("products_category_name_not_empty"))
      ensures fault.None? && MatchedIds(ids, old(products).Keys) != {} && SqlNonEmpty(cat) && cat !in categories ==>
        r == Failure(ForeignKeyError)
      ensures fault.None? && SqlNonEmpty(cat) && cat in categories ==>
        && r == Success(|MatchedIds(ids, old(products).Keys)|)
        && products == Recategorised(old(products), ids, cat) && categories == old(categories)
    {
      if fault.Some? {
        return Failure(fault.value);
      }
      if MatchedIds(ids, products.Keys) == {} {
        RecategorisedNoMatch(products, ids, cat);
        return Success(0);
      }
      if !SqlNonEmpty(cat) {
        return Failure(CheckError("products_category_name_not_empty"));
      }
      if cat !in categories {
        return Failure(ForeignKeyError);
      }
      var count := SetCategoryOfRows(ids, cat);
      RecategorisedConsistent(categories, old(products), ids, cat);
      return Success(count);
    }

    /**
     * `DELETE FROM products WHERE id IN ids`: removes exactly the stored products
     * with a given id and ignores the rest; yields how many rows went.
     */
    method DeleteWhereIdIn(ids: seq<string>, fault: Option<Error>) returns (r: Result<nat, Error>)
      requires Valid()
      modifies this
      ensures Valid()
      ensures fault.Some? ==> r == Failure(fault.value) && unchanged(this)
      ensures fault.None? ==>
        && r == Success(|MatchedIds(ids, old(products).Keys)|)
        && products == WithoutIds(old(products), ids) && categories == old(categories)
    {
      if fault.Some? {
        return Failure(fault.value);
      }
      var count := RemoveRows(ids);
      WithoutIdsConsistent(categories, old(products), ids);
      return Success(count);
    }

    /** The row changes of the recategorising UPDATE, one given id at a time. */
    method SetCategoryOfRows(ids: seq<string>, cat: string) returns (count: nat)
      modifies this
      ensures count == |MatchedIds(ids, old(products).Keys)|
      ensures products == Recategorised(old(products), ids, cat) && categories == old(categories)
    {
      var i := 0;
      var updated: set<string> := {};
      while i < |ids|
        invariant 0 <= i <= |ids|
        invariant updated == MatchedIds(ids[..i], old(products).Keys)
        invariant products == Recategorised(old(products), ids[..i], cat) && categories == old(categories)
      {
        var id := ids[i];
        assert ids[..i + 1] == ids[..i] + [id];
        MatchedStep(ids[..i], old(products).Keys, id);
        if id in products {
          RecategorisedStep(old(products), ids[..i], id, cat);
          products := products[id := products[id].(categoryName := cat)];
          updated := updated + {id};
        } else {
          RecategorisedSkip(old(products), ids[..i], id, cat);
        }
        i := i + 1;
      }
      assert ids[..i] == ids;
      return |updated|;
    }

    /** The row removals of the DELETE, one given id at a time. */
    method RemoveRows(ids: seq<string>) returns (count: nat)
      modifies this
      ensures count == |MatchedIds(ids, old(products).Keys)|
      ensures products == WithoutIds(old(products), ids) && categories == old(categories)
    {
      var i := 0;
      count := 0;
      while i < |ids|
        invariant 0 <= i <= |ids|
        invariant products == WithoutIds(old(products), ids[..i]) && categories == old(categories)
        invariant count == |MatchedIds(ids[..i], old(products).Keys)|
      {
        var id := ids[i];
        RemoveRowStep(old(products), ids, i, products);
        if id in products {
          products := products - {id};
          count := count + 1;
        }
        i := i + 1;
      }
      assert ids[..i] == ids;
    }

    /** A product refers to the category. */
    predicate Referenced(name: string)
      reads this
    {
      exists id | id in products :: products[id].categoryName == name
    }

    /**
     * `DELETE FROM categories WHERE name = ?`: the foreign key's `ON DELETE CASCADE`
     * removes the products filed under it in the same statement.
     */
    method DeleteCategory(name: string, fault: Option<Error>) returns (r: Result<nat, Error>)
      requires Valid()
      modifies this
      ensures Valid()
      ensures fault.Some? ==> r == Failure(fault.value) && unchanged(this)
      ensures fault.None? && name !in old(categories) ==> r == Success(0) && unchanged(this)
      ensures fault.None? && name in old(categories) ==>
        && r == Success(1)
        && categories == old(categories) - {name}
        && products == WithoutCategory(old(products), name)
    {
      if fault.Some? {
        return Failure(fault.value);
      }
      if name !in categories {
        assert products == WithoutCategory(products, name);
        return Success(0);
      }
      WithoutCategoryConsistent(categories, products, name);
      categories := categories - {name};
      products := WithoutCategory(products, name);
      return Success(1);
    }

    /**
     * `UPDATE categories SET name = newName WHERE name = name`. No update action is
     * declared on the foreign key, so renaming a category that products still
     * refer to fails at the end of the statement instead of cascading.
     */
    method RenameCategory(name: string, newName: string, fault: Option<Error>) returns (r: Result<nat, Error>)
      requires Valid()
      modifies this
      ensures Valid()
      ensures r.Failure? ==> unchanged(this)
      ensures products == old(products)
      ensures fault.Some? ==> r == Failure(fault.value)
      ensures fault.None? && name !in old(categories) ==> r == Success(0) && unchanged(this)
      ensures fault.None? && name in old(categories) && !SqlNonEmpty(newName) ==>
        r == Failure(CheckError("categories_name_not_empty"))
      ensures fault.None? && name in old(categories) && SqlNonEmpty(newName) && newName != name && newName in old(categories) ==>
        r == Failure(CategoryNameTaken)
      ensures fault.None? && name in old(categories) && SqlNonEmpty(newName) && newName != name && newName !in old(categories) && old(Referenced(name)) ==>
        r == Failure(ForeignKeyError)
      ensures (fault.None? && name in old(categories) && SqlNonEmpty(newName) &&
               (newName == name || (newName !in old(categories) && !old(Referenced(name))))) ==>
        r == Success(1) && categories == old(categories) - {name} + {newName}
      ensures r.Success? && r.value == 1 ==> categories == old(categories) - {name} + {newName}
    {
      if fault.Some? {
        return Failure(fault.value);
      }
      if name !in categories {
        return Success(0);
      }
      if !SqlNonEmpty(newName) {
        return Failure(CheckError("categories_name_not_empty"));
      }
      if newName != name && newName in categories {
        return Failure(CategoryNameTaken);
      }
      if newName != name && Referenced(name) {
        return Failure(ForeignKeyError);
      }
      categories := categories - {name} + {newName};
      return Success(1);
    }
  }
}
