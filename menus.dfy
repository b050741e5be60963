/**
 * The menu service (services/menuService.js): a `MenuItem` collection with a
 * unique index on `optionNumber`, modelled as a map from option number to
 * item; the upsert of the default menus; the main-menu and option texts; and
 * the insertion of a new option.
 */
module Menus {
  import opened Wrappers

  /** One line of an option's sub-menu; `handler` is free text ('text', 'function', 'redirect'). */
  datatype SubOption = SubOption(number: string, text: string, handler: string)

  /** A stored menu item. */
  datatype MenuItem = MenuItem(optionNumber: string, title: string, description: string, subOptions: seq<SubOption>, isActive: bool)

  /** A document handed to `addNewMenuOption`; `None` is an absent field. */
  datatype MenuData = MenuData(
    optionNumber: Option<string>,
    title: Option<string>,
    description: Option<string>,
    subOptions: seq<SubOption>,
    isActive: Option<bool>)

  /** A default menu: the fields its `$set` writes (it has no `isActive`). */
  datatype Default = Default(optionNumber: string, title: string, description: string, subOptions: seq<SubOption>)

  /** How `newMenu.save()` ends. */
  datatype SaveResult = Saved(item: MenuItem) | ValidationError | DuplicateKey

  const Header := "🤖 *Atendimento Moreira Bot* 🤖\n\n" + "Por favor, escolha uma opção:\n"
  const Footer := "\nDigite apenas o *número* da opção desejada."
  /** The variation selector and combining keycap that follow each option number. */
  const Keycap := "\U{FE0F}\U{20E3}"

  /** The menus `initializeDefaultMenus` writes. */
  const DefaultMenus := [
    Default("1", "Falar com atendente", "Conexão com atendente humano", [
      SubOption("1", "Voltar ao menu principal", "text"),
      SubOption("2", "Deixar número para retorno", "function")])]

  /** What the unique index on `optionNumber` guarantees: each item is filed under its own number. */
  ghost predicate Keyed(items: map<string, MenuItem>) {
    forall k :: k in items ==> items[k].optionNumber == k
  }

  // ---------------------------------------------------------------------
  // The order of `.sort('optionNumber')`: strings compared character by
  // character, a proper prefix first.

  predicate Below(a: string, b: string)
    decreases |a|
  {
    if a == [] then b != []
    else if b == [] then false
    else if a[0] != b[0] then a[0] < b[0]
    else Below(a[1..], b[1..])
  }

  lemma {:induction false} BelowIrreflexive(a: string)
    ensures !Below(a, a)
    decreases |a|
  {
    if a != [] {
      BelowIrreflexive(a[1..]);
    }
  }

  lemma {:induction false} BelowAsymmetric(a: string, b: string)
    requires Below(a, b)
    ensures !Below(b, a)
    decreases |a|
  {
    if a != [] && b != [] && a[0] == b[0] {
      BelowAsymmetric(a[1..], b[1..]);
    }
  }

  lemma {:induction false} BelowTransitive(a: string, b: string, c: string)
    requires Below(a, b) && Below(b, c)
    ensures Below(a, c)
    decreases |a|
  {
    if a != [] && a[0] == b[0] && b[0] == c[0] {
      BelowTransitive(a[1..], b[1..], c[1..]);
    }
  }

  lemma {:induction false} BelowTotal(a: string, b: string)
    requires a != b
    ensures Below(a, b) || Below(b, a)
    decreases |a|
  {
    if a != [] && b != [] && a[0] == b[0] {
      assert a == [a[0]] + a[1..] && b == [b[0]] + b[1..];
      BelowTotal(a[1..], b[1..]);
    }
  }

  /** `k` comes first among `keys`. */
  predicate IsLeast(k: string, keys: set<string>) {
    k in keys && forall j :: j in keys && j != k ==> Below(k, j)
  }

  lemma {:induction false} LeastExists(keys: set<string>)
    requires keys != {}
    ensures exists k :: IsLeast(k, keys)
    decreases |keys|
  {
    var x :| x in keys;
    var rest := keys - {x};
    if rest == {} {
      assert keys == {x};
      assert IsLeast(x, keys);
    } else {
      LeastExists(rest);
      var m :| IsLeast(m, rest);
      if Below(x, m) {
        forall j | j in keys && j != x
          ensures Below(x, j)
        {
          if j != m {
            BelowTransitive(x, m, j);
          }
        }
        assert IsLeast(x, keys);
      } else {
        BelowTotal(x, m);
        assert IsLeast(m, keys);
      }
    }
  }

  lemma LeastUnique(keys: set<string>)
    ensures forall k1, k2 :: IsLeast(k1, keys) && IsLeast(k2, keys) ==> k1 == k2
  {
    forall k1, k2 | IsLeast(k1, keys) && IsLeast(k2, keys)
      ensures k1 == k2
    {
      if k1 != k2 {
        BelowAsymmetric(k1, k2);
      }
    }
  }

  /** The keys in ascending order: each one, exactly once, each before every larger one. */
  function Ascending(keys: set<string>): (r: seq<string>)
    ensures |r| == |keys|
    ensures forall k :: k in r <==> k in keys
    ensures forall i, j :: 0 <= i < j < |r| ==> Below(r[i], r[j])
    decreases |keys|
  {
    if keys == {} then []
    else
      LeastExists(keys);
      LeastUnique(keys);
      var k :| IsLeast(k, keys);
      var rest := Ascending(keys - {k});
      assert forall j :: 0 <= j < |rest| ==> rest[j] in keys - {k};
      [k] + rest
  }

  // ---------------------------------------------------------------------
  // The main menu.

  function ActiveKeys(items: map<string, MenuItem>): set<string> {
    set k | k in items && items[k].isActive
  }

  /** `MenuItem.find({ isActive: true }).sort('optionNumber')`. */
  function ActiveMenus(items: map<string, MenuItem>): seq<MenuItem> {
    var keys := Ascending(ActiveKeys(items));
    assert forall i :: 0 <= i < |keys| ==> keys[i] in ActiveKeys(items);
    seq(|keys|, i requires 0 <= i < |keys| => items[keys[i]])
  }

  function MenuLine(m: MenuItem): string {
    m.optionNumber + Keycap + " - " + m.title + "\n"
  }

  function MenuLines(menus: seq<MenuItem>): string {
    if menus == [] then "" else MenuLines(menus[..|menus| - 1]) + MenuLine(menus[|menus| - 1])
  }

  /** The text `getMainMenu` returns. */
  function MainMenuText(items: map<string, MenuItem>): string {
    Header + MenuLines(ActiveMenus(items)) + Footer
  }

  /** The lines of a list of menus are the lines of its parts, in order. */
  lemma {:induction false} MenuLinesAppend(a: seq<MenuItem>, b: seq<MenuItem>)
    ensures MenuLines(a + b) == MenuLines(a) + MenuLines(b)
    decreases |b|
  {
    if b == [] {
      assert a + b == a;
    } else {
      var b' := b[..|b| - 1];
      assert (a + b)[..|a + b| - 1] == a + b';
      MenuLinesAppend(a, b');
      Regroup(MenuLines(a), MenuLines(b'), MenuLine(b[|b| - 1]));
    }
  }

  /** Exactly the active items are listed, each once, in ascending option number. */
  lemma MainMenuListsActive(items: map<string, MenuItem>)
    requires Keyed(items)
    ensures var menus := ActiveMenus(items);
      && (forall m :: m in menus <==> m in items.Values && m.isActive)
      && (forall i, j :: 0 <= i < j < |menus| ==> Below(menus[i].optionNumber, menus[j].optionNumber))
  {
    var keys := Ascending(ActiveKeys(items));
    var menus := ActiveMenus(items);
    forall m | m in menus
      ensures m in items.Values && m.isActive
    {
      var i :| 0 <= i < |menus| && menus[i] == m;
      assert keys[i] in ActiveKeys(items);
    }
    forall m | m in items.Values && m.isActive
      ensures m in menus
    {
      var k :| k in items && items[k] == m;
      assert k in ActiveKeys(items);
      var i :| 0 <= i < |keys| && keys[i] == k;
      assert menus[i] == m;
    }
    forall i, j | 0 <= i < j < |menus|
      ensures Below(menus[i].optionNumber, menus[j].optionNumber)
    {
      assert keys[i] in ActiveKeys(items) && keys[j] in ActiveKeys(items);
    }
  }

  /** The main menu with nothing active is the header and the footer alone. */
  lemma EmptyMainMenu(items: map<string, MenuItem>)
    requires forall k :: k in items ==> !items[k].isActive
    ensures MainMenuText(items) == Header + Footer
  {
    assert ActiveKeys(items) == {};
  }

  /** Option numbers sort as strings: "10" is listed before "2". */
  lemma TenBeforeTwo(ten: MenuItem, two: MenuItem)
    requires ten.optionNumber == "10" && two.optionNumber == "2" && ten.isActive && two.isActive
    ensures MainMenuText(map["2" := two, "10" := ten]) == Header + MenuLine(ten) + MenuLine(two) + Footer
  {
    ActiveTenTwo(ten, two);
    TwoLines(ten, two);
  }

  /** Two menus give their two lines, in order. */
  lemma TwoLines(a: MenuItem, b: MenuItem)
    ensures MenuLines([a, b]) == MenuLine(a) + MenuLine(b)
  {
    assert [a, b][..1] == [a] && [a][..0] == [];
    assert MenuLines([a]) == MenuLine(a);
  }

  /** The active items "2" and "10" are found in the order "10", "2". */
  lemma ActiveTenTwo(ten: MenuItem, two: MenuItem)
    requires ten.optionNumber == "10" && two.optionNumber == "2" && ten.isActive && two.isActive
    ensures ActiveMenus(map["2" := two, "10" := ten]) == [ten, two]
  {
    var items := map["2" := two, "10" := ten];
    assert ActiveKeys(items) == {"2", "10"};
    AscendingTenTwo();
  }

  /** "10" sorts before "2". */
  lemma AscendingTenTwo()
    ensures Ascending({"2", "10"}) == ["10", "2"]
  {
    var keys := {"2", "10"};
    assert Below("10", "2");
    assert IsLeast("10", keys);
    LeastUnique(keys);
    assert keys - {"10"} == {"2"};
    assert IsLeast("2", {"2"});
    LeastUnique({"2"});
    assert {"2"} - {"2"} == {};
  }

  // ---------------------------------------------------------------------
  // The menu of one option.

  function SubLine(o: SubOption): string {
    o.number + " - " + o.text + "\n"
  }

  function SubLines(options: seq<SubOption>): string {
    if options == [] then "" else SubLines(options[..|options| - 1]) + SubLine(options[|options| - 1])
  }

  /** The text `getMenuForOption` builds for a stored item. */
  function OptionText(m: MenuItem): string {
    "📌 *" + m.title + "*:\n\n" + m.description + "\n\n" + SubLines(m.subOptions)
  }

  /** The text `getMenuForOption(optionNumber)` returns. */
  function MenuForOption(items: map<string, MenuItem>, optionNumber: string): string {
    if optionNumber in items then OptionText(items[optionNumber]) else MainMenuText(items)
  }

  /**
   * An unknown option number gets exactly the main menu; a known one gets
   * its own title, description and sub-options, whether or not it is active.
   */
  lemma OptionOrMainMenu(items: map<string, MenuItem>, optionNumber: string)
    ensures optionNumber !in items ==> MenuForOption(items, optionNumber) == MainMenuText(items)
    ensures optionNumber in items ==> MenuForOption(items, optionNumber) == OptionText(items[optionNumber])
  {
  }

  /** An inactive item is missing from the main menu but still answers its own number. */
  lemma InactiveStillRendered(items: map<string, MenuItem>, optionNumber: string)
    requires Keyed(items) && optionNumber in items && !items[optionNumber].isActive
    ensures items[optionNumber] !in ActiveMenus(items)
    ensures MenuForOption(items, optionNumber) == OptionText(items[optionNumber])
  {
    MainMenuListsActive(items);
  }

  /** The text of an item carrying the default option's fields. */
  lemma DefaultItemText(m: MenuItem)
    requires m.title == DefaultMenus[0].title && m.description == DefaultMenus[0].description
    requires m.subOptions == DefaultMenus[0].subOptions
    ensures OptionText(m)
      == "📌 *" + "Falar com atendente" + "*:\n\n" + "Conexão com atendente humano" + "\n\n"
       + "1" + " - " + "Voltar ao menu principal" + "\n"
       + "2" + " - " + "Deixar número para retorno" + "\n"
  {
    var subs := m.subOptions;
    assert subs[..1][..0] == [] && subs[..1] == [subs[0]];
    assert SubLines(subs) == SubLine(subs[0]) + SubLine(subs[1]);
  }

  /**
   * Once the defaults are installed over any collection, option "1" shows its
   * title and description, then its two sub-options in stored order.
   */
  lemma DefaultOptionText(existing: map<string, MenuItem>)
    ensures MenuForOption(Upserts(existing, DefaultMenus), "1")
      == "📌 *" + "Falar com atendente" + "*:\n\n" + "Conexão com atendente humano" + "\n\n"
       + "1" + " - " + "Voltar ao menu principal" + "\n"
       + "2" + " - " + "Deixar número para retorno" + "\n"
  {
    var items := Upserts(existing, DefaultMenus);
    DefaultsInstalled(existing);
    OptionOrMainMenu(items, "1");
    DefaultItemText(items["1"]);
  }

  // ---------------------------------------------------------------------
  // `updateOne({ optionNumber }, { $set: menu }, { upsert: true })`.

  /** The `$set` of `d` over the item stored under its number, if any; an inserted item gets the default `isActive: true`. */
  function SetFields(stored: Option<MenuItem>, d: Default): MenuItem {
    MenuItem(d.optionNumber, d.title, d.description, d.subOptions, if stored.Some? then stored.value.isActive else true)
  }

  function Upsert(items: map<string, MenuItem>, d: Default): map<string, MenuItem> {
    items[d.optionNumber := SetFields(if d.optionNumber in items then Some(items[d.optionNumber]) else None, d)]
  }

  /** The collection after upserting each of `ds` in turn. */
  function Upserts(items: map<string, MenuItem>, ds: seq<Default>): map<string, MenuItem> {
    if ds == [] then items else Upsert(Upserts(items, ds[..|ds| - 1]), ds[|ds| - 1])
  }

  /** The last of `ds` with number `k`: the one whose fields win. */
  function LastFor(ds: seq<Default>, k: string): (r: Option<Default>)
    ensures r.Some? ==> r.value in ds && r.value.optionNumber == k
    ensures r.None? <==> forall d :: d in ds ==> d.optionNumber != k
  {
    if ds == [] then None
    else if ds[|ds| - 1].optionNumber == k then Some(ds[|ds| - 1])
    else
      var r := LastFor(ds[..|ds| - 1], k);
      assert forall d :: d in ds ==> d in ds[..|ds| - 1] || d == ds[|ds| - 1];
      r
  }

  /**
   * What the upserts leave under each number: a number no default names
   * keeps its item (or stays absent); a number some default names holds the
   * fields of the last such default, with the `isActive` it had before, or
   * `true` if it was inserted.
   */
  lemma {:induction false} UpsertsAt(items: map<string, MenuItem>, ds: seq<Default>, k: string)
    ensures k in Upserts(items, ds) <==> k in items || LastFor(ds, k).Some?
    ensures LastFor(ds, k).None? && k in items ==> Upserts(items, ds)[k] == items[k]
    ensures LastFor(ds, k).Some? ==>
      Upserts(items, ds)[k] == SetFields(if k in items then Some(items[k]) else None, LastFor(ds, k).value)
    decreases |ds|
  {
    if ds != [] {
      UpsertsAt(items, ds[..|ds| - 1], k);
    }
  }

  /** The upserts keep every item under its own number. */
  lemma {:induction false} UpsertsKeyed(items: map<string, MenuItem>, ds: seq<Default>)
    requires Keyed(items)
    ensures Keyed(Upserts(items, ds))
    decreases |ds|
  {
    if ds != [] {
      UpsertsKeyed(items, ds[..|ds| - 1]);
    }
  }

  /** Running `initializeDefaultMenus` twice leaves the collection as running it once. */
  lemma UpsertsIdempotent(items: map<string, MenuItem>, ds: seq<Default>)
    ensures Upserts(Upserts(items, ds), ds) == Upserts(items, ds)
  {
    var once := Upserts(items, ds);
    var twice := Upserts(once, ds);
    forall k
      ensures k in twice <==> k in once
      ensures k in once ==> twice[k] == once[k]
    {
      UpsertsAt(items, ds, k);
      UpsertsAt(once, ds, k);
    }
  }

  /** After the default upserts: option "1" is the default menu, keeping its `isActive`; all other items are untouched. */
  lemma DefaultsInstalled(items: map<string, MenuItem>)
    ensures var after := Upserts(items, DefaultMenus);
      && "1" in after
      && after["1"].title == "Falar com atendente"
      && after["1"].description == "Conexão com atendente humano"
      && after["1"].subOptions == DefaultMenus[0].subOptions
      && after["1"].isActive == ("1" !in items || items["1"].isActive)
      && after.Keys == items.Keys + {"1"}
      && forall k :: k in items && k != "1" ==> after[k] == items[k]
  {
    assert DefaultMenus[..0] == [];
  }

  // ---------------------------------------------------------------------
  // `addNewMenuOption(menuData)`.

  /** A required String passes mongoose validation when present and not empty. */
  predicate Given(field: Option<string>) {
    field.Some? && field.value != ""
  }

  /** The document `new MenuItem(menuData)` validates to, if it does; `isActive` defaults to true. */
  function Validate(data: MenuData): (r: Option<MenuItem>)
    ensures r.Some? <==> Given(data.optionNumber) && Given(data.title) && Given(data.description)
  {
    if Given(data.optionNumber) && Given(data.title) && Given(data.description) then
      Some(MenuItem(data.optionNumber.value, data.title.value, data.description.value, data.subOptions,
        if data.isActive.Some? then data.isActive.value else true))
    else None
  }

  /** The collection after `save()`, and how the save ended: validation first, then the unique index. */
  function Add(items: map<string, MenuItem>, data: MenuData): (map<string, MenuItem>, SaveResult) {
    var doc := Validate(data);
    if doc.None? then (items, ValidationError)
    else if doc.value.optionNumber in items then (items, DuplicateKey)
    else (items[doc.value.optionNumber := doc.value], Saved(doc.value))
  }

  /**
   * A new option is saved exactly when its number, title and description
   * are given and its number is not taken; then it is stored under its
   * number and returned, and nothing else changes. Otherwise the collection
   * is unchanged.
   */
  lemma AddInsertsOrRejects(items: map<string, MenuItem>, data: MenuData)
    requires Keyed(items)
    ensures var (after, r) := Add(items, data);
      && Keyed(after)
      && (r.Saved? <==> Given(data.optionNumber) && Given(data.title) && Given(data.description)
                        && data.optionNumber.value !in items)
      && (!r.Saved? ==> after == items)
      && (r.Saved? ==>
            && r.item.optionNumber == data.optionNumber.value
            && r.item.title == data.title.value && r.item.description == data.description.value
            && r.item.subOptions == data.subOptions
            && r.item.isActive == (data.isActive != Some(false))
            && after == items[r.item.optionNumber := r.item])
  {
  }

  /** A taken option number is refused, even when the rest of the data is valid. */
  lemma AddRefusesTakenNumber(items: map<string, MenuItem>, data: MenuData)
    requires Given(data.optionNumber) && Given(data.title) && Given(data.description)
    requires data.optionNumber.value in items
    ensures Add(items, data) == (items, DuplicateKey)
  {
  }

  /** A missing or empty required field is refused before the index is consulted. */
  lemma AddRefusesMissingField(items: map<string, MenuItem>, data: MenuData)
    requires !Given(data.optionNumber) || !Given(data.title) || !Given(data.description)
    ensures Add(items, data) == (items, ValidationError)
  {
  }

  // ---------------------------------------------------------------------

  class MenuService {
    var items: map<string, MenuItem>

    ghost predicate Valid()
      reads this
    {
      Keyed(items)
    }

    /** `new MenuService()` over an existing collection: runs `initializeDefaultMenus`. */
    constructor (existing: map<string, MenuItem>)
      requires Keyed(existing)
      ensures Valid() && items == Upserts(existing, DefaultMenus)
    {
      items := existing;
      new;
      InitializeDefaultMenus();
    }

    /** `initializeDefaultMenus()`: one upsert per default menu, in order. */
    method InitializeDefaultMenus()
      requires Valid()
      modifies this
      ensures Valid() && items == Upserts(old(items), DefaultMenus)
    {
      for i := 0 to |DefaultMenus|
        invariant items == Upserts(old(items), DefaultMenus[..i])
        invariant Valid()
      {
        var d := DefaultMenus[i];
        assert DefaultMenus[..i + 1][..i] == DefaultMenus[..i];
        items := items[d.optionNumber := SetFields(if d.optionNumber in items then Some(items[d.optionNumber]) else None, d)];
      }
      assert DefaultMenus[..|DefaultMenus|] == DefaultMenus;
    }

    /** `getMainMenu()`: the header, one line per active item in ascending order, the footer. */
    method GetMainMenu() returns (text: string)
      ensures text == MainMenuText(items)
    {
      var menus := ActiveMenus(items);
      text := "🤖 *Atendimento Moreira Bot* 🤖\n\n";
      text := text + "Por favor, escolha uma opção:\n";
      assert text == Header + MenuLines(menus[..0]) by {
        assert menus[..0] == [];
      }
      for i := 0 to |menus|
        invariant text == Header + MenuLines(menus[..i])
      {
        assert menus[..i + 1][..i] == menus[..i];
        assert MenuLines(menus[..i + 1]) == MenuLines(menus[..i]) + MenuLine(menus[i]);
        Regroup(Header, MenuLines(menus[..i]), MenuLine(menus[i]));
        text := text + MenuLine(menus[i]);
      }
      assert menus[..|menus|] == menus;
      text := text + Footer;
    }

    /** `getMenuForOption(optionNumber)`: the option's own menu, or the main menu for an unknown number. */
    method GetMenuForOption(optionNumber: string) returns (text: string)
      ensures text == MenuForOption(items, optionNumber)
    {
      if optionNumber !in items {
        text := GetMainMenu();
        return;
      }
      var menu := items[optionNumber];
      text := "📌 *" + menu.title + "*:\n\n";
      text := text + menu.description + "\n\n";
      for i := 0 to |menu.subOptions|
        invariant text == "📌 *" + menu.title + "*:\n\n" + menu.description + "\n\n" + SubLines(menu.subOptions[..i])
      {
        assert menu.subOptions[..i + 1][..i] == menu.subOptions[..i];
        text := text + SubLine(menu.subOptions[i]);
      }
      assert menu.subOptions[..|menu.subOptions|] == menu.subOptions;
    }

    /** `addNewMenuOption(menuData)`: validate, then insert under the unique number. */
    method AddNewMenuOption(data: MenuData) returns (r: SaveResult)
      requires Valid()
      modifies this
      ensures Valid() && (items, r) == Add(old(items), data)
    {
      var doc := Validate(data);
      if doc.None? {
        return ValidationError;
      }
      if doc.value.optionNumber in items {
        return DuplicateKey;
      }
      items := items[doc.value.optionNumber := doc.value];
      r := Saved(doc.value);
    }
  }
}
