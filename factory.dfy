/** Building the shelf and the menu from configuration, as in
    mixorama/factory.py. A recipe's configuration is an ordered mapping
    from component names to volumes, with an optional `meta` entry holding
    the recipe's own attributes (its name, image, ...). */
module Factory {
  import opened Core
  import opened Recipes
  import opened Util

  /** A value in a recipe's configuration: a volume in ml, or the `meta` table. */
  datatype ConfigValue = Volume(ml: int) | Meta(attributes: map<string, string>)

  /** One entry of an ordered mapping. */
  datatype Entry = Entry(key: string, value: ConfigValue)

  /** A recipe's configuration, in file order. */
  type RecipeConfig = seq<Entry>

  const MetaKey: string := "meta"

  /** The shape the configuration file gives: distinct keys, the `meta`
      entry (if any) holding a table and every other entry a volume. */
  predicate WellFormedRecipe(es: RecipeConfig) {
    && (forall i, j :: 0 <= i < j < |es| ==> es[i].key != es[j].key)
    && (forall i :: 0 <= i < |es| ==> (es[i].key == MetaKey <==> es[i].value.Meta?))
  }

  predicate WellFormedMenu(cfg: seq<(string, RecipeConfig)>) {
    && (forall i, j :: 0 <= i < j < |cfg| ==> cfg[i].0 != cfg[j].0)
    && (forall i :: 0 <= i < |cfg| ==> WellFormedRecipe(cfg[i].1))
  }

  /** What the annotation `Dict[str, Dict[str, int]]` of `create_menu`
      promises of every entry other than `meta`: a volume. */
  predicate VolumesOnly(cfg: seq<(string, RecipeConfig)>) {
    forall i, j :: 0 <= i < |cfg| && 0 <= j < |cfg[i].1| && cfg[i].1[j].key != MetaKey ==>
      cfg[i].1[j].value.Volume?
  }

  /** `sequence.pop('meta') if 'meta' in sequence`: the value under `meta`, if any. */
  function MetaEntry(es: RecipeConfig): Option<ConfigValue> {
    if es == [] then None
    else if es[0].key == MetaKey then Some(es[0].value)
    else MetaEntry(es[1..])
  }

  /** A volume under `meta` has no `get`: line 65 raises AttributeError. */
  predicate BadMeta(es: RecipeConfig) {
    MetaEntry(es).Some? && MetaEntry(es).value.Volume?
  }

  /** The meta table: the popped table, or `{}` when there is none. */
  function MetaOf(es: RecipeConfig): map<string, string> {
    var m := MetaEntry(es);
    if m.Some? && m.value.Meta? then m.value.attributes else map[]
  }

  /** What the pop leaves: every entry but `meta`, in order. */
  function StripMeta(es: RecipeConfig): (rest: RecipeConfig)
    ensures |rest| <= |es|
    ensures forall e :: e in rest <==> e in es && e.key != MetaKey
  {
    if es == [] then []
    else if es[0].key == MetaKey then StripMeta(es[1..])
    else [es[0]] + StripMeta(es[1..])
  }

  /** `dict([(c.name, c) for c in bar.keys()])`: the bar's components by
      name, a later one winning over an earlier one with the same name. */
  function Available(bar: seq<Component>): (avail: map<string, Component>)
    ensures forall n :: n in avail <==> exists c :: c in bar && c.name == n
    ensures forall n :: n in avail ==> avail[n] in bar && avail[n].name == n
  {
    if bar == [] then map[]
    else
      var last := bar[|bar| - 1];
      var init := Available(bar[..|bar| - 1]);
      assert forall c :: c in bar <==> c in bar[..|bar| - 1] || c == last;
      init[last.name := last]
  }

  /** A configured volume as the pair's volume. A table under a component
      key is outside what `create_menu` is given (see `VolumesOnly`); it
      reads as 0 here. */
  function VolumeOf(v: ConfigValue): int {
    if v.Volume? then v.ml else 0
  }

  /** The inner loop of `create_menu`: one pair per entry, in order;
      ComponentNotAvailable for the first name the bar lacks. */
  function BuildSequence(avail: map<string, Component>, es: RecipeConfig): Result<seq<Pair>> {
    if es == [] then Ok([])
    else
      var last := es[|es| - 1];
      var init := BuildSequence(avail, es[..|es| - 1]);
      if init.Err? then init
      else if last.key !in avail then Err(ComponentNotAvailable(last.key))
      else Ok(init.value + [(avail[last.key], VolumeOf(last.value))])
  }

  /** What happens to one recipe of the configuration. */
  datatype Outcome =
    | Kept(recipe: Recipe)
    /** a component is not in the bar: a warning is logged and the recipe skipped */
    | Skipped(missing: string)
    /** `Recipe(...)` itself raises: the error leaves `create_menu` */
    | Fails(error: Error)

  /** The meta attributes with `name` defaulting to the recipe's key. */
  function Attributes(name: string, es: RecipeConfig): map<string, string> {
    var meta := MetaOf(es);
    meta["name" := if "name" in meta then meta["name"] else name]
  }

  /** One iteration of the outer loop of `create_menu`. A volume under
      `meta` raises AttributeError before any component is looked up. A
      `sequence` key among the meta attributes collides with the `sequence`
      argument of `Recipe(...)`, a TypeError the loop does not catch. */
  function Process(avail: map<string, Component>, name: string, es: RecipeConfig): Outcome {
    var attrs := Attributes(name, es);
    var built := BuildSequence(avail, StripMeta(es));
    if BadMeta(es) then Fails(AttributeError("get"))
    else if built.Err? then Skipped(if built.error.ComponentNotAvailable? then built.error.component else "")
    else if "sequence" in attrs then Fails(TypeError)
    else Kept(NewRecipe(Some(attrs["name"]), Some(built.value), attrs - {"name"}))
  }

  /** A menu: recipes by name, in configuration order. */
  type Menu = seq<(string, Recipe)>

  /** `create_menu(bar, config)` over the recipes of `cfg`, in order. */
  function MenuOf(avail: map<string, Component>, cfg: seq<(string, RecipeConfig)>): Result<Menu> {
    if cfg == [] then Ok([])
    else
      var init := MenuOf(avail, cfg[..|cfg| - 1]);
      var last := cfg[|cfg| - 1];
      if init.Err? then init
      else match Process(avail, last.0, last.1)
        case Kept(r) => Ok(init.value + [(last.0, r)])
        case Skipped(_) => init
        case Fails(e) => Err(e)
  }

  predicate AllAvailable(avail: map<string, Component>, es: RecipeConfig) {
    forall i :: 0 <= i < |es| ==> es[i].key in avail
  }

  /** The sequence is built exactly when every name is in the bar; it then
      holds one pair per entry, in order, with the configured volume and the
      bar's component of that name; otherwise the error names the first
      missing component. */
  lemma {:induction false} BuildSequenceSpec(avail: map<string, Component>, es: RecipeConfig)
    ensures BuildSequence(avail, es).Ok? <==> AllAvailable(avail, es)
    ensures BuildSequence(avail, es).Ok? ==>
      var ps := BuildSequence(avail, es).value;
      |ps| == |es| && forall i :: 0 <= i < |es| ==> ps[i] == (avail[es[i].key], VolumeOf(es[i].value))
    ensures BuildSequence(avail, es).Err? ==> exists i :: (0 <= i < |es| &&
      BuildSequence(avail, es).error == ComponentNotAvailable(es[i].key) && es[i].key !in avail &&
      AllAvailable(avail, es[..i]))
  {
    if es != [] {
      var init := es[..|es| - 1];
      BuildSequenceSpec(avail, init);
      assert forall i :: 0 <= i < |init| ==> init[i] == es[i];
      if BuildSequence(avail, init).Err? {
        var i :| 0 <= i < |init| && BuildSequence(avail, init).error == ComponentNotAvailable(init[i].key)
                 && init[i].key !in avail && AllAvailable(avail, init[..i]);
        assert init[..i] == es[..i];
      } else if es[|es| - 1].key !in avail {
        assert es[..|es| - 1] == init;
      }
    }
  }

  /** `meta` is never looked up as a component: the entries that become pairs
      are exactly the others, in order. */
  lemma {:induction false} MetaIsNotAComponent(es: RecipeConfig)
    ensures forall i :: 0 <= i < |StripMeta(es)| ==> StripMeta(es)[i].key != MetaKey
    ensures WellFormedRecipe(es) ==> forall i :: 0 <= i < |StripMeta(es)| ==> StripMeta(es)[i].value.Volume?
  {
    forall i | 0 <= i < |StripMeta(es)| ensures StripMeta(es)[i].key != MetaKey {
      assert StripMeta(es)[i] in StripMeta(es);
    }
    if WellFormedRecipe(es) {
      forall i | 0 <= i < |StripMeta(es)| ensures StripMeta(es)[i].value.Volume? {
        assert StripMeta(es)[i] in es;
      }
    }
  }

  /** A kept recipe is named by its meta `name`, or by its key when meta
      gives none (a falsy name keeps the class default); its other meta
      attributes are set on it; its sequence is the configured one. */
  lemma KeptRecipe(avail: map<string, Component>, name: string, es: RecipeConfig)
    requires Process(avail, name, es).Kept?
    ensures var r := Process(avail, name, es).recipe;
      && (r.name == if "name" in MetaOf(es) && MetaOf(es)["name"] != "" then MetaOf(es)["name"]
                    else if "name" !in MetaOf(es) && name != "" then name
                    else DefaultRecipeName)
      && r.attributes == MetaOf(es) - {"name"}
      && Ok(r.sequence) == BuildSequence(avail, StripMeta(es))
      && AllAvailable(avail, StripMeta(es))
  {
    BuildSequenceSpec(avail, StripMeta(es));
    assert Attributes(name, es) - {"name"} == MetaOf(es) - {"name"};
  }

  /** The fate of a recipe depends on its own configuration only: with a
      table (or nothing) under `meta`, a recipe is kept, or the whole call
      fails, exactly when every name is in the bar; a volume under `meta`
      always fails. */
  lemma ProcessKeepsIff(avail: map<string, Component>, name: string, es: RecipeConfig)
    ensures !Process(avail, name, es).Skipped? <==> BadMeta(es) || AllAvailable(avail, StripMeta(es))
    ensures Process(avail, name, es).Fails? <==>
      BadMeta(es) || (AllAvailable(avail, StripMeta(es)) && "sequence" in MetaOf(es))
    ensures BadMeta(es) ==> Process(avail, name, es) == Fails(AttributeError("get"))
    ensures Process(avail, name, es).Skipped? ==> Process(avail, name, es).missing !in avail
  {
    BuildSequenceSpec(avail, StripMeta(es));
  }

  /** A recipe whose `meta` holds a volume stops `create_menu` with
      AttributeError, before its components are looked up. */
  lemma VolumeUnderMetaFails(name: string, ml: int, rest: RecipeConfig)
    ensures MenuOf(map[], [(name, [Entry(MetaKey, Volume(ml))] + rest)]) == Err(AttributeError("get"))
  {
    assert BadMeta([Entry(MetaKey, Volume(ml))] + rest);
  }

  /** Joining the outcomes of two parts of a configuration. */
  function Then(a: Result<Menu>, b: Result<Menu>): Result<Menu> {
    if a.Err? then a else if b.Err? then b else Ok(a.value + b.value)
  }

  /** The menu of a concatenation is the menus joined: kept recipes stay in
      configuration order, and what happens to one part does not change
      what happens to the other (short of a failure, which stops the call). */
  lemma {:induction false} MenuAppend(avail: map<string, Component>, a: seq<(string, RecipeConfig)>,
                                      b: seq<(string, RecipeConfig)>)
    ensures MenuOf(avail, a + b) == Then(MenuOf(avail, a), MenuOf(avail, b))
    decreases |b|
  {
    if b == [] {
      assert a + b == a;
      if MenuOf(avail, a).Ok? {
        assert MenuOf(avail, a).value + [] == MenuOf(avail, a).value;
      }
    } else {
      var init := b[..|b| - 1];
      MenuAppend(avail, a, init);
      assert (a + b)[..|a + b| - 1] == a + init;
      assert (a + b)[|a + b| - 1] == b[|b| - 1];
      if MenuOf(avail, a).Ok? && MenuOf(avail, init).Ok? {
        var x, y := MenuOf(avail, a).value, MenuOf(avail, init).value;
        match Process(avail, b[|b| - 1].0, b[|b| - 1].1)
        case Kept(r) => assert x + (y + [(b[|b| - 1].0, r)]) == (x + y) + [(b[|b| - 1].0, r)];
        case Skipped(_) =>
        case Fails(_) =>
      }
    }
  }

  /** The call fails exactly when a recipe whose components are all in the
      bar collides with `sequence`. */
  lemma {:induction false} MenuFailsIff(avail: map<string, Component>, cfg: seq<(string, RecipeConfig)>)
    ensures MenuOf(avail, cfg).Err? <==> exists i :: 0 <= i < |cfg| && Process(avail, cfg[i].0, cfg[i].1).Fails?
  {
    if cfg != [] {
      var init := cfg[..|cfg| - 1];
      MenuFailsIff(avail, init);
      assert forall i :: 0 <= i < |init| ==> init[i] == cfg[i];
    }
  }

  /** Every recipe on the menu is one the configuration keeps, under its
      configuration key. */
  lemma {:induction false} MenuHoldsOnlyKept(avail: map<string, Component>, cfg: seq<(string, RecipeConfig)>)
    requires MenuOf(avail, cfg).Ok?
    ensures var m := MenuOf(avail, cfg).value;
      forall j :: 0 <= j < |m| ==> exists i :: (0 <= i < |cfg| && cfg[i].0 == m[j].0 &&
        Process(avail, cfg[i].0, cfg[i].1) == Kept(m[j].1))
  {
    if cfg != [] {
      var init := cfg[..|cfg| - 1];
      MenuHoldsOnlyKept(avail, init);
      var m0 := MenuOf(avail, init).value;
      var m := MenuOf(avail, cfg).value;
      forall j | 0 <= j < |m|
        ensures exists i :: (0 <= i < |cfg| && cfg[i].0 == m[j].0 && Process(avail, cfg[i].0, cfg[i].1) == Kept(m[j].1))
      {
        if j < |m0| {
          assert m[j] == m0[j];
          var i :| 0 <= i < |init| && init[i].0 == m0[j].0 && Process(avail, init[i].0, init[i].1) == Kept(m0[j].1);
          assert cfg[i] == init[i];
        } else {
          assert cfg[|cfg| - 1].0 == m[j].0;
        }
      }
    }
  }

  /** Every recipe the configuration keeps is on the menu, under its
      configuration key. */
  lemma {:induction false} MenuHoldsAllKept(avail: map<string, Component>, cfg: seq<(string, RecipeConfig)>)
    requires MenuOf(avail, cfg).Ok?
    ensures forall i :: 0 <= i < |cfg| && Process(avail, cfg[i].0, cfg[i].1).Kept? ==>
      (cfg[i].0, Process(avail, cfg[i].0, cfg[i].1).recipe) in MenuOf(avail, cfg).value
  {
    if cfg != [] {
      var init, last := cfg[..|cfg| - 1], cfg[|cfg| - 1];
      MenuHoldsAllKept(avail, init);
      var m0, m := MenuOf(avail, init).value, MenuOf(avail, cfg).value;
      assert forall x :: x in m0 ==> x in m;
      forall i | 0 <= i < |cfg| && Process(avail, cfg[i].0, cfg[i].1).Kept?
        ensures (cfg[i].0, Process(avail, cfg[i].0, cfg[i].1).recipe) in m
      {
        if i < |init| {
          assert init[i] == cfg[i];
        } else {
          assert m == m0 + [(last.0, Process(avail, last.0, last.1).recipe)];
        }
      }
    }
  }

  /** A configuration whose recipe names are unique gives a menu with
      unique names. */
  lemma {:induction false} MenuNamesDistinct(avail: map<string, Component>, cfg: seq<(string, RecipeConfig)>)
    requires forall i, j :: 0 <= i < j < |cfg| ==> cfg[i].0 != cfg[j].0
    requires MenuOf(avail, cfg).Ok?
    ensures var m := MenuOf(avail, cfg).value;
      forall j, k :: 0 <= j < k < |m| ==> m[j].0 != m[k].0
  {
    if cfg != [] {
      var init, last := cfg[..|cfg| - 1], cfg[|cfg| - 1];
      MenuNamesDistinct(avail, init);
      MenuHoldsOnlyKept(avail, init);
      var m := MenuOf(avail, init).value;
      forall j | 0 <= j < |m| ensures m[j].0 != last.0 {
        var i :| 0 <= i < |init| && init[i].0 == m[j].0 && Process(avail, init[i].0, init[i].1) == Kept(m[j].1);
        assert init[i] == cfg[i];
      }
    }
  }

  // ---------------------------------------------------------------------
  // create_menu, step by step
  // ---------------------------------------------------------------------

  /** The configuration `create_menu` is given; the call pops each recipe's
      `meta` entry out of it. */
  class MenuConfig {
    var recipes: seq<(string, RecipeConfig)>

    constructor (recipes: seq<(string, RecipeConfig)>)
      ensures this.recipes == recipes
    {
      this.recipes := recipes;
    }
  }

  /** The first `k` recipes have lost their `meta` entry, the rest are as
      they were. */
  predicate PoppedUpTo(before: seq<(string, RecipeConfig)>, after: seq<(string, RecipeConfig)>, k: nat) {
    && |after| == |before| && k <= |before|
    && (forall i :: 0 <= i < k ==> after[i] == (before[i].0, StripMeta(before[i].1)))
    && (forall i :: k <= i < |before| ==> after[i] == before[i])
  }

  /** The inner loop: collect the pairs, stopping at the first missing name. */
  method BuildComponentSequence(avail: map<string, Component>, es: RecipeConfig) returns (r: Result<seq<Pair>>)
    ensures r == BuildSequence(avail, es)
  {
    var sequence: seq<Pair> := [];
    var j := 0;
    while j < |es|
      invariant 0 <= j <= |es|
      invariant BuildSequence(avail, es[..j]) == Ok(sequence)
    {
      assert es[..j + 1][..j] == es[..j];
      if es[j].key !in avail {
        assert BuildSequence(avail, es[..j + 1]) == Err(ComponentNotAvailable(es[j].key));
        BuildErrorPersists(avail, es, j + 1);
        return Err(ComponentNotAvailable(es[j].key));
      }
      sequence := sequence + [(avail[es[j].key], VolumeOf(es[j].value))];
      j := j + 1;
    }
    assert es[..j] == es;
    r := Ok(sequence);
  }

  /** Once a prefix fails, the whole sequence fails with the same error. */
  lemma {:induction false} BuildErrorPersists(avail: map<string, Component>, es: RecipeConfig, k: nat)
    requires k <= |es| && BuildSequence(avail, es[..k]).Err?
    ensures BuildSequence(avail, es) == BuildSequence(avail, es[..k])
    decreases |es| - k
  {
    if k < |es| {
      assert es[..k + 1][..k] == es[..k];
      BuildErrorPersists(avail, es, k + 1);
    } else {
      assert es[..k] == es;
    }
  }

  /** `create_menu(bar, config)`: for each recipe in order, pop its meta,
      default its name, build its sequence and either add the recipe, skip
      it (a missing component) or fail. */
  method CreateMenu(bar: seq<Component>, config: MenuConfig) returns (r: Result<Menu>)
    requires VolumesOnly(config.recipes)
    modifies config
    ensures r == MenuOf(Available(bar), old(config.recipes))
    ensures exists k :: PoppedUpTo(old(config.recipes), config.recipes, k)
    ensures r.Ok? ==> PoppedUpTo(old(config.recipes), config.recipes, |config.recipes|)
  {
    var avail := Available(bar);
    ghost var cfg := config.recipes;
    var menu: Menu := [];
    var i := 0;
    while i < |config.recipes|
      invariant 0 <= i <= |cfg| && PoppedUpTo(cfg, config.recipes, i)
      invariant MenuOf(avail, cfg[..i]) == Ok(menu)
    {
      var name, sequence := config.recipes[i].0, config.recipes[i].1;
      assert (name, sequence) == cfg[i];
      PoppedStep(cfg, config.recipes, i);
      config.recipes := config.recipes[i := (name, StripMeta(sequence))];
      MenuStep(avail, cfg, i);
      if BadMeta(sequence) {
        MenuErrorPersists(avail, cfg, i + 1);
        return Err(AttributeError("get"));
      }
      var attrs := Attributes(name, sequence);
      var built := BuildComponentSequence(avail, StripMeta(sequence));
      if built.Ok? {
        if "sequence" in attrs {
          MenuErrorPersists(avail, cfg, i + 1);
          return Err(TypeError);
        }
        menu := menu + [(name, NewRecipe(Some(attrs["name"]), Some(built.value), attrs - {"name"}))];
      }
      i := i + 1;
    }
    assert cfg[..i] == cfg;
    r := Ok(menu);
  }

  lemma PoppedStep(before: seq<(string, RecipeConfig)>, after: seq<(string, RecipeConfig)>, i: nat)
    requires PoppedUpTo(before, after, i) && i < |before|
    ensures PoppedUpTo(before, after[i := (before[i].0, StripMeta(before[i].1))], i + 1)
  {
  }

  lemma MenuStep(avail: map<string, Component>, cfg: seq<(string, RecipeConfig)>, i: nat)
    requires i < |cfg|
    ensures MenuOf(avail, cfg[..i + 1]) ==
      var init := MenuOf(avail, cfg[..i]);
      if init.Err? then init
      else match Process(avail, cfg[i].0, cfg[i].1)
        case Kept(r) => Ok(init.value + [(cfg[i].0, r)])
        case Skipped(_) => init
        case Fails(e) => Err(e)
  {
    assert cfg[..i + 1][..i] == cfg[..i] && cfg[..i + 1][i] == cfg[i];
  }

  /** Once a prefix of the configuration fails, the whole call fails with
      the same error. */
  lemma {:induction false} MenuErrorPersists(avail: map<string, Component>, cfg: seq<(string, RecipeConfig)>, k: nat)
    requires k <= |cfg| && MenuOf(avail, cfg[..k]).Err?
    ensures MenuOf(avail, cfg) == MenuOf(avail, cfg[..k])
    decreases |cfg| - k
  {
    if k < |cfg| {
      assert cfg[..k + 1][..k] == cfg[..k];
      MenuErrorPersists(avail, cfg, k + 1);
    } else {
      assert cfg[..k] == cfg;
    }
  }

  // ---------------------------------------------------------------------
  // create_shelf
  // ---------------------------------------------------------------------

  /** A component's configured properties, the keyword arguments of
      `Component(name=name, **properties)`. */
  datatype ComponentProperties = ComponentProperties(density: Option<real>, strength: Option<real>)

  /** The shelf's factory, `lambda n: Component(name=n)`. */
  function ShelfDefault(n: string): Component {
    NewComponent(Some(n), None, None)
  }

  function Configured(name: string, p: ComponentProperties): Component {
    NewComponent(Some(name), p.density, p.strength)
  }

  /** `create_shelf(config)`: a component per configured name, under that
      name, and a factory that makes a default component for any other. */
  method CreateShelf(config: map<string, ComponentProperties>) returns (shelf: DefaultFactoryDict<string, Component>)
    ensures fresh(shelf) && shelf.factory == Some(ShelfDefault) && shelf.factoryCalls == 0
    ensures shelf.items.Keys == config.Keys
    ensures forall n :: n in config ==> shelf.items[n] == Configured(n, config[n])
  {
    shelf := new DefaultFactoryDict(Some(ShelfDefault));
    var todo := config.Keys;
    while todo != {}
      invariant todo <= config.Keys
      invariant shelf.items.Keys == config.Keys - todo
      invariant forall n :: n in shelf.items ==> shelf.items[n] == Configured(n, config[n])
      invariant shelf.factory == Some(ShelfDefault) && shelf.factoryCalls == 0
      decreases todo
    {
      var name :| name in todo;
      shelf.Set(name, Configured(name, config[name]));
      todo := todo - {name};
    }
  }

  /** Looking up a name the configuration does not hold creates, stores and
      returns a default component of that name; configured names are
      returned as configured. */
  method ShelfLookup(config: map<string, ComponentProperties>, name: string) returns (c: Result<Component>)
    ensures name in config ==> c == Ok(Configured(name, config[name]))
    ensures name !in config ==> c == Ok(ShelfDefault(name)) && c.value.density == 1.0 && c.value.strength == 0.0
  {
    var shelf := CreateShelf(config);
    c := shelf.Get(name);
  }
}
