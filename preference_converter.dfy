/**
 * The Streamlit client's conversion of taste preferences between the backend's form
 * (1-5 scales, a budget in yen, English sake-type codes) and the Japanese labels the
 * preference form shows. Both directions are dict lookups with defaults; a lookup
 * key that cannot be hashed, a budget that cannot be compared with an integer, or a
 * type list that cannot be iterated raises TypeError, as in Python.
 */
module PreferenceConverter {
  import opened Values

  // The display direction's tables.
  const SweetnessLabels: seq<(int, string)> :=
    [(1, "とても甘口"), (2, "甘口"), (3, "中口"), (4, "辛口"), (5, "とても辛口")]
  const BodyLabels: seq<(int, string)> :=
    [(1, "とても軽い"), (2, "軽い"), (3, "中程度"), (4, "重い"), (5, "とても重い")]
  const ExperienceLabels: seq<(string, string)> :=
    [("beginner", "月に1回程度"), ("intermediate", "月に2-3回"), ("advanced", "ほぼ毎日")]
  const SakeTypeLabels: seq<(string, string)> :=
    [("junmai", "純米酒"), ("junmai_ginjo", "純米吟醸"), ("junmai_daiginjo", "純米大吟醸"),
     ("honjozo", "本醸造"), ("ginjo", "吟醸"), ("daiginjo", "大吟醸"),
     ("tokubetsu_junmai", "特別純米"), ("tokubetsu_honjozo", "特別本醸造")]

  // The backend direction's tables.
  const SweetnessScale: seq<(string, int)> :=
    [("とても甘口", 1), ("甘口", 2), ("やや甘口", 2), ("中口", 3), ("やや辛口", 4), ("辛口", 4), ("とても辛口", 5)]
  const BodyScale: seq<(string, int)> :=
    [("とても軽い", 1), ("軽い", 2), ("やや軽い", 2), ("中程度", 3), ("やや重い", 4), ("重い", 4), ("とても重い", 5)]
  const ExperienceCodes: seq<(string, string)> :=
    [("初めて", "beginner"), ("月に1回程度", "beginner"), ("月に2-3回", "intermediate"),
     ("週に1回以上", "intermediate"), ("ほぼ毎日", "advanced")]
  const BudgetByRange: seq<(string, int)> :=
    [("～1,000円", 1000), ("1,000～2,000円", 1500), ("2,000～3,000円", 2500), ("3,000～5,000円", 4000), ("5,000円～", 6000)]
  const SakeTypeCodes: seq<(string, string)> :=
    [("純米酒", "junmai"), ("純米吟醸", "junmai_ginjo"), ("純米大吟醸", "junmai_daiginjo"),
     ("本醸造", "honjozo"), ("吟醸", "ginjo"), ("大吟醸", "daiginjo"),
     ("特別純米", "tokubetsu_junmai"), ("特別本醸造", "tokubetsu_honjozo")]

  const DefaultBudget: int := 2500
  const DefaultSweetnessLabel: string := "中口"
  const DefaultBodyLabel: string := "中程度"
  const DefaultExperienceLabel: string := "月に1回程度"
  const DefaultScale: int := 3
  const DefaultExperienceCode: string := "beginner"

  /** The value a table entry for an integer key gives, when the looked-up value equals that key in Python. */
  function FindInt<T>(table: seq<(int, T)>, key: Value): (r: Option<T>)
    ensures r.None? <==> forall i :: 0 <= i < |table| ==> !EqualsInt(key, table[i].0)
    ensures r.Some? ==> exists i :: 0 <= i < |table| && EqualsInt(key, table[i].0) && table[i].1 == r.value
  {
    if table == [] then None
    else if EqualsInt(key, table[0].0) then Some(table[0].1)
    else
      var r := FindInt(table[1..], key);
      assert forall i :: 0 < i < |table| ==> table[i] == table[1..][i - 1];
      r
  }

  /** The value a table entry for a string key gives: only a string equal to the key finds it. */
  function FindText<T>(table: seq<(string, T)>, key: Value): (r: Option<T>)
    ensures r.None? <==> forall i :: 0 <= i < |table| ==> key != Str(table[i].0)
    ensures r.Some? ==> key.Str? && (key.s, r.value) in table
  {
    if table == [] then None
    else if key == Str(table[0].0) then Some(table[0].1)
    else
      var r := FindText(table[1..], key);
      assert forall i :: 0 < i < |table| ==> table[i] == table[1..][i - 1];
      r
  }

  /** The first entry for a key is the one found. */
  lemma {:induction false} FindTextAt<T>(table: seq<(string, T)>, j: nat)
    requires j < |table| && forall i :: 0 <= i < j ==> table[i].0 != table[j].0
    ensures FindText(table, Str(table[j].0)) == Some(table[j].1)
  {
    if j > 0 {
      FindTextAt(table[1..], j - 1);
    }
  }

  lemma {:induction false} FindIntAt<T>(table: seq<(int, T)>, j: nat)
    requires j < |table| && forall i :: 0 <= i < j ==> table[i].0 != table[j].0
    ensures FindInt(table, Int(table[j].0)) == Some(table[j].1)
  {
    if j > 0 {
      FindIntAt(table[1..], j - 1);
    }
  }

  /** `table.get(key, default)` for a key the table holds, before any other entry with that key. */
  lemma GetIntAt<T>(table: seq<(int, T)>, j: nat, default: T)
    requires j < |table| && forall i :: 0 <= i < j ==> table[i].0 != table[j].0
    ensures GetInt(table, Int(table[j].0), default) == Ok(table[j].1)
  {
    FindIntAt(table, j);
  }

  lemma GetTextAt<T>(table: seq<(string, T)>, j: nat, default: T)
    requires j < |table| && forall i :: 0 <= i < j ==> table[i].0 != table[j].0
    ensures GetText(table, Str(table[j].0), default) == Ok(table[j].1)
  {
    FindTextAt(table, j);
  }

  function Unhashable(key: Value): string
  {
    "unhashable type: '" + TypeName(key) + "'"
  }

  /** `table.get(key, default)` for a dict with integer keys. */
  function GetInt<T>(table: seq<(int, T)>, key: Value, default: T): (r: Result<T>)
    ensures r.Ok? <==> Hashable(key)
    ensures r.Ok? ==> r.value == (if FindInt(table, key).Some? then FindInt(table, key).value else default)
  {
    if !Hashable(key) then Err(Unhashable(key))
    else match FindInt(table, key)
      case Some(x) => Ok(x)
      case None => Ok(default)
  }

  /** `table.get(key, default)` for a dict with string keys. */
  function GetText<T>(table: seq<(string, T)>, key: Value, default: T): (r: Result<T>)
    ensures r.Ok? <==> Hashable(key)
    ensures r.Ok? ==> r.value == (if FindText(table, key).Some? then FindText(table, key).value else default)
  {
    if !Hashable(key) then Err(Unhashable(key))
    else match FindText(table, key)
      case Some(x) => Ok(x)
      case None => Ok(default)
  }

  /** `table.get(t, t)`: a sake type is translated when the table knows it and kept as it is otherwise. */
  function Translate(table: seq<(string, string)>, t: Value): (r: Result<Value>)
    ensures r.Ok? <==> Hashable(t)
  {
    if !Hashable(t) then Err(Unhashable(t))
    else match FindText(table, t)
      case Some(x) => Ok(Str(x))
      case None => Ok(t)
  }

  /** The list comprehension over the sake types: one translation per item, in order, or the first error. */
  function TranslateAll(table: seq<(string, string)>, items: seq<Value>): (r: Result<seq<Value>>)
    ensures r.Ok? <==> forall k :: 0 <= k < |items| ==> Hashable(items[k])
    ensures r.Ok? ==> |r.value| == |items| && forall k :: 0 <= k < |items| ==> Translate(table, items[k]) == Ok(r.value[k])
  {
    if items == [] then Ok([])
    else
      var first :- Translate(table, items[0]);
      var rest := TranslateAll(table, items[1..]);
      assert forall k :: 0 < k < |items| ==> items[k] == items[1..][k - 1];
      if rest.Err? then Err(rest.error) else Ok([first] + rest.value)
  }

  /** The items of the value the comprehension iterates over; TypeError when it is not iterable. */
  function ItemsOf(v: Value): (r: Result<seq<Value>>)
    ensures v.List? ==> r == Ok(v.items)
  {
    match Iterate(v)
    case Some(items) => Ok(items)
    case None => Err("'" + TypeName(v) + "' object is not iterable")
  }

  /** The price-range label of a budget: the first bucket whose upper bound it does not exceed. */
  function PriceRange(budget: real): (r: string)
    ensures budget <= 1000.0 ==> r == "～1,000円"
    ensures 1000.0 < budget <= 2000.0 ==> r == "1,000～2,000円"
    ensures 2000.0 < budget <= 3000.0 ==> r == "2,000～3,000円"
    ensures 3000.0 < budget <= 5000.0 ==> r == "3,000～5,000円"
    ensures 5000.0 < budget ==> r == "5,000円～"
  {
    if budget <= 1000.0 then "～1,000円"
    else if budget <= 2000.0 then "1,000～2,000円"
    else if budget <= 3000.0 then "2,000～3,000円"
    else if budget <= 5000.0 then "3,000～5,000円"
    else "5,000円～"
  }

  /** The label of the stored budget (2500 when there is none); TypeError when it is not a number. */
  function PriceRangeOf(prefs: Entries): (r: Result<string>)
    ensures r.Ok? <==> Numeric(GetOr(prefs, "budget", Int(DefaultBudget))).Some?
  {
    var budget := GetOr(prefs, "budget", Int(DefaultBudget));
    match Numeric(budget)
    case Some(b) => Ok(PriceRange(b))
    case None => Err("'<=' not supported between instances of '" + TypeName(budget) + "' and 'int'")
  }

  /** The fields the backend does not store but the form needs. */
  datatype FormOnly = FormOnly(aroma: Value, scene: Value, food: Value, temperature: Value, knowledge: Value, other: Value)

  /** The form-only fields, copied from the preferences when there and defaulted otherwise. */
  function FormOnlyOf(prefs: Entries): FormOnly
  {
    FormOnly(GetOr(prefs, "aroma_preference", List([])), GetOr(prefs, "drinking_scene", List([])),
             GetOr(prefs, "food_pairing", List([])), GetOr(prefs, "temperature_preference", List([])),
             GetOr(prefs, "knowledge_level", Str("初心者")), GetOr(prefs, "other_preferences", Str("")))
  }

  /** The form-only items of the display dict, in the literal's order. */
  function FormOnlyItems(f: FormOnly): Entries
  {
    Item("aroma_preference", f.aroma,
    Item("drinking_scene", f.scene,
    Item("food_pairing", f.food,
    Item("temperature_preference", f.temperature,
    Item("knowledge_level", f.knowledge,
    Item("other_preferences", f.other, []))))))
  }

  /** The dict the display direction returns, item by item in the literal's order. */
  function DisplayDict(sakeTypes: seq<Value>, sweetness: string, body: string, priceRange: string,
                       experience: string, formOnly: FormOnly): Entries
  {
    Item("sake_types", List(sakeTypes),
    Item("sweetness", Str(sweetness),
    Item("body", Str(body),
    Item("price_range", Str(priceRange),
    Item("experience_level", Str(experience),
    FormOnlyItems(formOnly))))))
  }

  /** Backend preferences in the form's terms. The budget is bucketed first, then the dict is built in order. */
  function ToDisplay(prefs: Entries): Result<Entries>
  {
    var priceRange :- PriceRangeOf(prefs);
    var categories :- ItemsOf(GetOr(prefs, "categories", List([])));
    var sakeTypes :- TranslateAll(SakeTypeLabels, categories);
    var sweetness :- GetInt(SweetnessLabels, GetOr(prefs, "sweetness", Int(3)), DefaultSweetnessLabel);
    var body :- GetInt(BodyLabels, GetOr(prefs, "richness", Int(3)), DefaultBodyLabel);
    var experience :- GetText(ExperienceLabels, GetOr(prefs, "experience_level", Str("beginner")), DefaultExperienceLabel);
    Ok(DisplayDict(sakeTypes, sweetness, body, priceRange, experience, FormOnlyOf(prefs)))
  }

  /** The dict the backend direction returns, item by item in the literal's order. */
  function BackendDict(categories: seq<Value>, sweetness: int, richness: int, budget: int, experience: string): Entries
  {
    Item("categories", List(categories),
    Item("sweetness", Int(sweetness),
    Item("richness", Int(richness),
    Item("budget", Int(budget),
    Item("experience_level", Str(experience),
    Item("avoid_categories", List([]), []))))))
  }

  /** The form's preferences in the backend's terms. */
  function ToBackend(prefs: Entries): Result<Entries>
  {
    var types :- ItemsOf(GetOr(prefs, "sake_types", List([])));
    var categories :- TranslateAll(SakeTypeCodes, types);
    var sweetness :- GetText(SweetnessScale, GetOr(prefs, "sweetness", Str("中口")), DefaultScale);
    var richness :- GetText(BodyScale, GetOr(prefs, "body", Str("中程度")), DefaultScale);
    var budget :- GetText(BudgetByRange, GetOr(prefs, "price_range", Str("2,000～3,000円")), DefaultBudget);
    var experience :- GetText(ExperienceCodes, GetOr(prefs, "experience_level", Str("初めて")), DefaultExperienceCode);
    Ok(BackendDict(categories, sweetness, richness, budget, experience))
  }

  /** Where each field of the display dict the backend fills comes from. */
  lemma DisplayDictFields(sakeTypes: seq<Value>, sweetness: string, body: string, priceRange: string,
                          experience: string, f: FormOnly)
    ensures Get(DisplayDict(sakeTypes, sweetness, body, priceRange, experience, f), "sake_types") == Some(List(sakeTypes))
    ensures Get(DisplayDict(sakeTypes, sweetness, body, priceRange, experience, f), "sweetness") == Some(Str(sweetness))
    ensures Get(DisplayDict(sakeTypes, sweetness, body, priceRange, experience, f), "body") == Some(Str(body))
    ensures Get(DisplayDict(sakeTypes, sweetness, body, priceRange, experience, f), "price_range") == Some(Str(priceRange))
    ensures Get(DisplayDict(sakeTypes, sweetness, body, priceRange, experience, f), "experience_level") == Some(Str(experience))
  {
    var e5 := FormOnlyItems(f);
    var e4 := Item("experience_level", Str(experience), e5);
    var e3 := Item("price_range", Str(priceRange), e4);
    var e2 := Item("body", Str(body), e3);
    var e1 := Item("sweetness", Str(sweetness), e2);
    var e0 := Item("sake_types", List(sakeTypes), e1);
    assert DisplayDict(sakeTypes, sweetness, body, priceRange, experience, f) == e0;
    assert Get(e0, "sake_types") == Some(List(sakeTypes)) by {
      GetItem("sake_types", List(sakeTypes), e1, "sake_types");
    }
    assert Get(e0, "sweetness") == Some(Str(sweetness)) by {
      GetItem("sake_types", List(sakeTypes), e1, "sweetness");
      GetItem("sweetness", Str(sweetness), e2, "sweetness");
    }
    assert Get(e0, "body") == Some(Str(body)) by {
      GetItem("sake_types", List(sakeTypes), e1, "body");
      GetItem("sweetness", Str(sweetness), e2, "body");
      GetItem("body", Str(body), e3, "body");
    }
    assert Get(e0, "price_range") == Some(Str(priceRange)) by {
      GetItem("sake_types", List(sakeTypes), e1, "price_range");
      GetItem("sweetness", Str(sweetness), e2, "price_range");
      GetItem("body", Str(body), e3, "price_range");
      GetItem("price_range", Str(priceRange), e4, "price_range");
    }
    assert Get(e0, "experience_level") == Some(Str(experience)) by {
      GetItem("sake_types", List(sakeTypes), e1, "experience_level");
      GetItem("sweetness", Str(sweetness), e2, "experience_level");
      GetItem("body", Str(body), e3, "experience_level");
      GetItem("price_range", Str(priceRange), e4, "experience_level");
      GetItem("experience_level", Str(experience), e5, "experience_level");
    }
  }

  /** Where each form-only item comes from. */
  lemma FormOnlyItemsFields(f: FormOnly)
    ensures Get(FormOnlyItems(f), "aroma_preference") == Some(f.aroma)
    ensures Get(FormOnlyItems(f), "drinking_scene") == Some(f.scene)
    ensures Get(FormOnlyItems(f), "food_pairing") == Some(f.food)
    ensures Get(FormOnlyItems(f), "temperature_preference") == Some(f.temperature)
    ensures Get(FormOnlyItems(f), "knowledge_level") == Some(f.knowledge)
    ensures Get(FormOnlyItems(f), "other_preferences") == Some(f.other)
  {
    var e6: Entries := [];
    var e5 := Item("other_preferences", f.other, e6);
    var e4 := Item("knowledge_level", f.knowledge, e5);
    var e3 := Item("temperature_preference", f.temperature, e4);
    var e2 := Item("food_pairing", f.food, e3);
    var e1 := Item("drinking_scene", f.scene, e2);
    var e0 := Item("aroma_preference", f.aroma, e1);
    assert FormOnlyItems(f) == e0;
    assert Get(e0, "aroma_preference") == Some(f.aroma) by {
      GetItem("aroma_preference", f.aroma, e1, "aroma_preference");
    }
    assert Get(e0, "drinking_scene") == Some(f.scene) by {
      GetItem("aroma_preference", f.aroma, e1, "drinking_scene");
      GetItem("drinking_scene", f.scene, e2, "drinking_scene");
    }
    assert Get(e0, "food_pairing") == Some(f.food) by {
      GetItem("aroma_preference", f.aroma, e1, "food_pairing");
      GetItem("drinking_scene", f.scene, e2, "food_pairing");
      GetItem("food_pairing", f.food, e3, "food_pairing");
    }
    assert Get(e0, "temperature_preference") == Some(f.temperature) by {
      GetItem("aroma_preference", f.aroma, e1, "temperature_preference");
      GetItem("drinking_scene", f.scene, e2, "temperature_preference");
      GetItem("food_pairing", f.food, e3, "temperature_preference");
      GetItem("temperature_preference", f.temperature, e4, "temperature_preference");
    }
    assert Get(e0, "knowledge_level") == Some(f.knowledge) by {
      GetItem("aroma_preference", f.aroma, e1, "knowledge_level");
      GetItem("drinking_scene", f.scene, e2, "knowledge_level");
      GetItem("food_pairing", f.food, e3, "knowledge_level");
      GetItem("temperature_preference", f.temperature, e4, "knowledge_level");
      GetItem("knowledge_level", f.knowledge, e5, "knowledge_level");
    }
    assert Get(e0, "other_preferences") == Some(f.other) by {
      GetItem("aroma_preference", f.aroma, e1, "other_preferences");
      GetItem("drinking_scene", f.scene, e2, "other_preferences");
      GetItem("food_pairing", f.food, e3, "other_preferences");
      GetItem("temperature_preference", f.temperature, e4, "other_preferences");
      GetItem("knowledge_level", f.knowledge, e5, "other_preferences");
      GetItem("other_preferences", f.other, e6, "other_preferences");
    }
  }

  /** Where each field of the backend dict comes from. */
  lemma BackendDictFields(categories: seq<Value>, sweetness: int, richness: int, budget: int, experience: string)
    ensures Get(BackendDict(categories, sweetness, richness, budget, experience), "categories") == Some(List(categories))
    ensures Get(BackendDict(categories, sweetness, richness, budget, experience), "sweetness") == Some(Int(sweetness))
    ensures Get(BackendDict(categories, sweetness, richness, budget, experience), "richness") == Some(Int(richness))
    ensures Get(BackendDict(categories, sweetness, richness, budget, experience), "budget") == Some(Int(budget))
    ensures Get(BackendDict(categories, sweetness, richness, budget, experience), "experience_level") == Some(Str(experience))
    ensures Get(BackendDict(categories, sweetness, richness, budget, experience), "avoid_categories") == Some(List([]))
  {
    var e6: Entries := [];
    var e5 := Item("avoid_categories", List([]), e6);
    var e4 := Item("experience_level", Str(experience), e5);
    var e3 := Item("budget", Int(budget), e4);
    var e2 := Item("richness", Int(richness), e3);
    var e1 := Item("sweetness", Int(sweetness), e2);
    var e0 := Item("categories", List(categories), e1);
    assert BackendDict(categories, sweetness, richness, budget, experience) == e0;
    assert Get(e0, "categories") == Some(List(categories)) by {
      GetItem("categories", List(categories), e1, "categories");
    }
    assert Get(e0, "sweetness") == Some(Int(sweetness)) by {
      GetItem("categories", List(categories), e1, "sweetness");
      GetItem("sweetness", Int(sweetness), e2, "sweetness");
    }
    assert Get(e0, "richness") == Some(Int(richness)) by {
      GetItem("categories", List(categories), e1, "richness");
      GetItem("sweetness", Int(sweetness), e2, "richness");
      GetItem("richness", Int(richness), e3, "richness");
    }
    assert Get(e0, "budget") == Some(Int(budget)) by {
      GetItem("categories", List(categories), e1, "budget");
      GetItem("sweetness", Int(sweetness), e2, "budget");
      GetItem("richness", Int(richness), e3, "budget");
      GetItem("budget", Int(budget), e4, "budget");
    }
    assert Get(e0, "experience_level") == Some(Str(experience)) by {
      GetItem("categories", List(categories), e1, "experience_level");
      GetItem("sweetness", Int(sweetness), e2, "experience_level");
      GetItem("richness", Int(richness), e3, "experience_level");
      GetItem("budget", Int(budget), e4, "experience_level");
      GetItem("experience_level", Str(experience), e5, "experience_level");
    }
    assert Get(e0, "avoid_categories") == Some(List([])) by {
      GetItem("categories", List(categories), e1, "avoid_categories");
      GetItem("sweetness", Int(sweetness), e2, "avoid_categories");
      GetItem("richness", Int(richness), e3, "avoid_categories");
      GetItem("budget", Int(budget), e4, "avoid_categories");
      GetItem("experience_level", Str(experience), e5, "avoid_categories");
      GetItem("avoid_categories", List([]), e6, "avoid_categories");
    }
  }

  /**
   * Each sweetness grade and its label convert into each other: the grade's label maps
   * back to the grade, and the label's grade back to the label.
   */
  lemma SweetnessRoundTrip(j: nat)
    requires j < |SweetnessLabels|
    ensures GetInt(SweetnessLabels, Int(SweetnessLabels[j].0), DefaultSweetnessLabel) == Ok(SweetnessLabels[j].1)
    ensures GetText(SweetnessScale, Str(SweetnessLabels[j].1), DefaultScale) == Ok(SweetnessLabels[j].0)
  {
    GetIntAt(SweetnessLabels, j, DefaultSweetnessLabel);
    SweetnessGraded(j);
  }

  lemma SweetnessGraded(j: nat)
    requires j < |SweetnessLabels|
    ensures GetText(SweetnessScale, Str(SweetnessLabels[j].1), DefaultScale) == Ok(SweetnessLabels[j].0)
  {
    var k := [0, 1, 3, 5, 6][j];
    assert SweetnessScale[k] == (SweetnessLabels[j].1, SweetnessLabels[j].0);
    GetTextAt(SweetnessScale, k, DefaultScale);
  }

  /** Each body grade and its label convert into each other. */
  lemma BodyRoundTrip(j: nat)
    requires j < |BodyLabels|
    ensures GetInt(BodyLabels, Int(BodyLabels[j].0), DefaultBodyLabel) == Ok(BodyLabels[j].1)
    ensures GetText(BodyScale, Str(BodyLabels[j].1), DefaultScale) == Ok(BodyLabels[j].0)
  {
    GetIntAt(BodyLabels, j, DefaultBodyLabel);
    BodyGraded(j);
  }

  lemma BodyGraded(j: nat)
    requires j < |BodyLabels|
    ensures GetText(BodyScale, Str(BodyLabels[j].1), DefaultScale) == Ok(BodyLabels[j].0)
  {
    var k := [0, 1, 3, 5, 6][j];
    assert BodyScale[k] == (BodyLabels[j].1, BodyLabels[j].0);
    GetTextAt(BodyScale, k, DefaultScale);
  }

  /** Each experience level and its frequency label convert into each other. */
  lemma ExperienceRoundTrip(j: nat)
    requires j < |ExperienceLabels|
    ensures GetText(ExperienceLabels, Str(ExperienceLabels[j].0), DefaultExperienceLabel) == Ok(ExperienceLabels[j].1)
    ensures GetText(ExperienceCodes, Str(ExperienceLabels[j].1), DefaultExperienceCode) == Ok(ExperienceLabels[j].0)
  {
    GetTextAt(ExperienceLabels, j, DefaultExperienceLabel);
    ExperienceCoded(j);
  }

  lemma ExperienceCoded(j: nat)
    requires j < |ExperienceLabels|
    ensures GetText(ExperienceCodes, Str(ExperienceLabels[j].1), DefaultExperienceCode) == Ok(ExperienceLabels[j].0)
  {
    var k := [1, 2, 4][j];
    assert ExperienceCodes[k] == (ExperienceLabels[j].1, ExperienceLabels[j].0);
    GetTextAt(ExperienceCodes, k, DefaultExperienceCode);
  }

  /** Each price range's representative budget falls back into that range. */
  lemma BudgetRoundTrip(j: nat)
    requires j < |BudgetByRange|
    ensures PriceRange(BudgetByRange[j].1 as real) == BudgetByRange[j].0
    ensures GetText(BudgetByRange, Str(BudgetByRange[j].0), DefaultBudget) == Ok(BudgetByRange[j].1)
  {
    BudgetInRange(j);
    GetTextAt(BudgetByRange, j, DefaultBudget);
  }

  lemma BudgetInRange(j: nat)
    requires j < |BudgetByRange|
    ensures PriceRange(BudgetByRange[j].1 as real) == BudgetByRange[j].0
  {
    if j == 0 {} else if j == 1 {} else if j == 2 {} else if j == 3 {} else {}
  }

  /** The two sake-type tables are each other's inverse, entry by entry, and no code is its own label. */
  lemma SakeTypeTablesInverse(j: nat)
    requires j < |SakeTypeLabels|
    ensures |SakeTypeCodes| == |SakeTypeLabels|
    ensures SakeTypeCodes[j] == (SakeTypeLabels[j].1, SakeTypeLabels[j].0)
    ensures SakeTypeLabels[j].0 != SakeTypeLabels[j].1
  {
    if j == 0 {} else if j == 1 {} else if j == 2 {} else if j == 3 {}
    else if j == 4 {} else if j == 5 {} else if j == 6 {} else {}
  }

  /** The codes are written in ASCII and the names are not, so no code is ever a name. */
  lemma TypeScripts()
    ensures |SakeTypeCodes| == |SakeTypeLabels|
    ensures forall i :: 0 <= i < |SakeTypeLabels| ==>
              SakeTypeLabels[i].0 != [] && SakeTypeLabels[i].0[0] < '\U{80}'
              && SakeTypeLabels[i].1 != [] && '\U{80}' <= SakeTypeLabels[i].1[0]
    ensures forall i :: 0 <= i < |SakeTypeCodes| ==> SakeTypeCodes[i].0 != [] && '\U{80}' <= SakeTypeCodes[i].0[0]
  {
  }

  /** Each sake-type code is shown as its Japanese name. */
  lemma SakeTypeToName(j: nat)
    requires j < |SakeTypeLabels|
    ensures FindText(SakeTypeLabels, Str(SakeTypeLabels[j].0)) == Some(SakeTypeLabels[j].1)
  {
    FindTextAt(SakeTypeLabels, j);
  }

  /** Each Japanese sake-type name is stored as its code. */
  lemma SakeTypeToCode(j: nat)
    requires j < |SakeTypeLabels|
    ensures FindText(SakeTypeCodes, Str(SakeTypeLabels[j].1)) == Some(SakeTypeLabels[j].0)
  {
    SakeTypeTablesInverse(j);
    FindTextAt(SakeTypeCodes, j);
  }

  /** No Japanese name is also a code. */
  lemma NamesAreNotCodes(j: nat)
    requires j < |SakeTypeLabels|
    ensures FindText(SakeTypeLabels, Str(SakeTypeLabels[j].1)).None?
  {
    TypeScripts();
    assert forall i :: 0 <= i < |SakeTypeLabels| ==> SakeTypeLabels[j].1[0] != SakeTypeLabels[i].0[0];
  }

  /** No code is also a Japanese name. */
  lemma CodesAreNotNames(j: nat)
    requires j < |SakeTypeLabels|
    ensures FindText(SakeTypeCodes, Str(SakeTypeLabels[j].0)).None?
  {
    TypeScripts();
    assert forall i :: 0 <= i < |SakeTypeCodes| ==> SakeTypeLabels[j].0[0] != SakeTypeCodes[i].0[0];
  }

  /** A value the form can hold as a sake type: anything hashable that is not one of the English codes. */
  predicate IsFormType(t: Value)
  {
    Hashable(t) && FindText(SakeTypeLabels, t).None?
  }

  /** A value the backend can hold as a category: anything hashable that is not one of the Japanese names. */
  predicate IsStoredType(t: Value)
  {
    Hashable(t) && FindText(SakeTypeCodes, t).None?
  }

  /**
   * A sake type is kept as it is exactly when its table does not know it: known codes
   * and known names always change, everything else passes through.
   */
  lemma UnknownTypeKept(t: Value)
    requires Hashable(t)
    ensures Translate(SakeTypeLabels, t) == Ok(t) <==> FindText(SakeTypeLabels, t).None?
    ensures Translate(SakeTypeCodes, t) == Ok(t) <==> FindText(SakeTypeCodes, t).None?
  {
    assert |SakeTypeLabels| == |SakeTypeCodes| == 8;
    if FindText(SakeTypeLabels, t).Some? {
      var x := FindText(SakeTypeLabels, t).value;
      var i :| 0 <= i < |SakeTypeLabels| && SakeTypeLabels[i] == (t.s, x);
      SakeTypeTablesInverse(i);
    }
    if FindText(SakeTypeCodes, t).Some? {
      var x := FindText(SakeTypeCodes, t).value;
      var i :| 0 <= i < |SakeTypeCodes| && SakeTypeCodes[i] == (t.s, x);
      SakeTypeTablesInverse(i);
    }
  }

  /** The i-th name is stored as the i-th code, which is not a name and is shown as the i-th name again. */
  lemma NameStoredAndBack(i: nat)
    requires i < |SakeTypeLabels|
    ensures Translate(SakeTypeCodes, Str(SakeTypeLabels[i].1)) == Ok(Str(SakeTypeLabels[i].0))
    ensures IsStoredType(Str(SakeTypeLabels[i].0))
    ensures Translate(SakeTypeLabels, Str(SakeTypeLabels[i].0)) == Ok(Str(SakeTypeLabels[i].1))
  {
    SakeTypeToCode(i);
    CodesAreNotNames(i);
    SakeTypeToName(i);
  }

  /** The i-th code is shown as the i-th name, which is not a code and is stored as the i-th code again. */
  lemma CodeShownAndBack(i: nat)
    requires i < |SakeTypeLabels|
    ensures Translate(SakeTypeLabels, Str(SakeTypeLabels[i].0)) == Ok(Str(SakeTypeLabels[i].1))
    ensures IsFormType(Str(SakeTypeLabels[i].1))
    ensures Translate(SakeTypeCodes, Str(SakeTypeLabels[i].1)) == Ok(Str(SakeTypeLabels[i].0))
  {
    SakeTypeToName(i);
    NamesAreNotCodes(i);
    SakeTypeToCode(i);
  }

  /** A sake type the form holds comes back unchanged from the backend. */
  lemma FormTypeRoundTrip(t: Value)
    requires IsFormType(t)
    ensures Translate(SakeTypeCodes, t).Ok? && IsStoredType(Translate(SakeTypeCodes, t).value)
    ensures Translate(SakeTypeLabels, Translate(SakeTypeCodes, t).value) == Ok(t)
  {
    if FindText(SakeTypeCodes, t).Some? {
      var x := FindText(SakeTypeCodes, t).value;
      var i :| 0 <= i < |SakeTypeCodes| && SakeTypeCodes[i] == (t.s, x);
      SakeTypeTablesInverse(i);
      NameStoredAndBack(i);
    }
  }

  /** A category the backend holds comes back unchanged from the form. */
  lemma StoredTypeRoundTrip(t: Value)
    requires IsStoredType(t)
    ensures Translate(SakeTypeLabels, t).Ok? && IsFormType(Translate(SakeTypeLabels, t).value)
    ensures Translate(SakeTypeCodes, Translate(SakeTypeLabels, t).value) == Ok(t)
  {
    if FindText(SakeTypeLabels, t).Some? {
      var x := FindText(SakeTypeLabels, t).value;
      var i :| 0 <= i < |SakeTypeLabels| && SakeTypeLabels[i] == (t.s, x);
      CodeShownAndBack(i);
    }
  }

  /** The form's list of sake types survives a trip to the backend and back, item for item. */
  lemma {:induction false} FormTypesRoundTrip(items: seq<Value>)
    requires forall k :: 0 <= k < |items| ==> IsFormType(items[k])
    ensures TranslateAll(SakeTypeCodes, items).Ok?
    ensures var stored := TranslateAll(SakeTypeCodes, items).value;
            (forall k :: 0 <= k < |stored| ==> IsStoredType(stored[k]))
            && TranslateAll(SakeTypeLabels, stored) == Ok(items)
  {
    var stored := TranslateAll(SakeTypeCodes, items).value;
    forall k | 0 <= k < |stored| ensures IsStoredType(stored[k]) && Translate(SakeTypeLabels, stored[k]) == Ok(items[k]) {
      FormTypeRoundTrip(items[k]);
    }
    var back := TranslateAll(SakeTypeLabels, stored).value;
    assert back == items;
  }

  /** The backend's list of categories survives a trip to the form and back, item for item. */
  lemma {:induction false} StoredTypesRoundTrip(items: seq<Value>)
    requires forall k :: 0 <= k < |items| ==> IsStoredType(items[k])
    ensures TranslateAll(SakeTypeLabels, items).Ok?
    ensures var shown := TranslateAll(SakeTypeLabels, items).value;
            (forall k :: 0 <= k < |shown| ==> IsFormType(shown[k]))
            && TranslateAll(SakeTypeCodes, shown) == Ok(items)
  {
    var shown := TranslateAll(SakeTypeLabels, items).value;
    forall k | 0 <= k < |shown| ensures IsFormType(shown[k]) && Translate(SakeTypeCodes, shown[k]) == Ok(items[k]) {
      StoredTypeRoundTrip(items[k]);
    }
    var back := TranslateAll(SakeTypeCodes, shown).value;
    assert back == items;
  }

  /**
   * Preferences as the form shows them: a list of sake types that are not codes, and a
   * sweetness, body, price range and experience label from the display tables.
   */
  predicate CanonicalDisplay(d: Entries)
  {
    var types := GetOr(d, "sake_types", Null);
    && types.List? && (forall k :: 0 <= k < |types.items| ==> IsFormType(types.items[k]))
    && (exists j :: 0 <= j < |SweetnessLabels| && GetOr(d, "sweetness", Null) == Str(SweetnessLabels[j].1))
    && (exists j :: 0 <= j < |BodyLabels| && GetOr(d, "body", Null) == Str(BodyLabels[j].1))
    && (exists j :: 0 <= j < |BudgetByRange| && GetOr(d, "price_range", Null) == Str(BudgetByRange[j].0))
    && (exists j :: 0 <= j < |ExperienceLabels| && GetOr(d, "experience_level", Null) == Str(ExperienceLabels[j].1))
  }

  /**
   * Preferences as the backend stores them: a list of categories that are not Japanese
   * names, grades 1-5, one of the five representative budgets and a known experience level.
   */
  predicate CanonicalBackend(b: Entries)
  {
    var categories := GetOr(b, "categories", Null);
    && categories.List? && (forall k :: 0 <= k < |categories.items| ==> IsStoredType(categories.items[k]))
    && (exists j :: 0 <= j < |SweetnessLabels| && GetOr(b, "sweetness", Null) == Int(SweetnessLabels[j].0))
    && (exists j :: 0 <= j < |BodyLabels| && GetOr(b, "richness", Null) == Int(BodyLabels[j].0))
    && (exists j :: 0 <= j < |BudgetByRange| && GetOr(b, "budget", Null) == Int(BudgetByRange[j].1))
    && (exists j :: 0 <= j < |ExperienceLabels| && GetOr(b, "experience_level", Null) == Str(ExperienceLabels[j].0))
  }

  /** A form field holding a label is looked up by that label, whatever default `get` was given. */
  lemma TextFieldFound<T>(m: Entries, k: string, fallback: Value, table: seq<(string, T)>, default: T, text: string, v: T)
    requires GetOr(m, k, Null) == Str(text)
    requires GetText(table, Str(text), default) == Ok(v)
    ensures GetText(table, GetOr(m, k, fallback), default) == Ok(v)
  {
    assert HasKey(m, k);
  }

  lemma IntFieldFound<T>(m: Entries, k: string, fallback: Value, table: seq<(int, T)>, default: T, key: int, v: T)
    requires GetOr(m, k, Null) == Int(key)
    requires GetInt(table, Int(key), default) == Ok(v)
    ensures GetInt(table, GetOr(m, k, fallback), default) == Ok(v)
  {
    assert HasKey(m, k);
  }

  lemma ListFieldFound(m: Entries, k: string)
    requires GetOr(m, k, Null).List?
    ensures ItemsOf(GetOr(m, k, List([]))) == Ok(GetOr(m, k, Null).items)
  {
    assert HasKey(m, k);
  }

  /** The backend direction succeeds once each of its lookups does. */
  lemma ToBackendOf(d: Entries, categories: seq<Value>, sweetness: int, richness: int, budget: int, experience: string)
    requires GetOr(d, "sake_types", List([])).List?
    requires TranslateAll(SakeTypeCodes, GetOr(d, "sake_types", List([])).items) == Ok(categories)
    requires GetText(SweetnessScale, GetOr(d, "sweetness", Str("中口")), DefaultScale) == Ok(sweetness)
    requires GetText(BodyScale, GetOr(d, "body", Str("中程度")), DefaultScale) == Ok(richness)
    requires GetText(BudgetByRange, GetOr(d, "price_range", Str("2,000～3,000円")), DefaultBudget) == Ok(budget)
    requires GetText(ExperienceCodes, GetOr(d, "experience_level", Str("初めて")), DefaultExperienceCode) == Ok(experience)
    ensures ToBackend(d) == Ok(BackendDict(categories, sweetness, richness, budget, experience))
  {
  }

  /** The display direction succeeds once each of its lookups does. */
  lemma ToDisplayOf(b: Entries, types: seq<Value>, sweetness: string, body: string, priceRange: string, experience: string)
    requires PriceRangeOf(b) == Ok(priceRange)
    requires GetOr(b, "categories", List([])).List?
    requires TranslateAll(SakeTypeLabels, GetOr(b, "categories", List([])).items) == Ok(types)
    requires GetInt(SweetnessLabels, GetOr(b, "sweetness", Int(3)), DefaultSweetnessLabel) == Ok(sweetness)
    requires GetInt(BodyLabels, GetOr(b, "richness", Int(3)), DefaultBodyLabel) == Ok(body)
    requires GetText(ExperienceLabels, GetOr(b, "experience_level", Str("beginner")), DefaultExperienceLabel) == Ok(experience)
    ensures ToDisplay(b) == Ok(DisplayDict(types, sweetness, body, priceRange, experience, FormOnlyOf(b)))
  {
  }

  /** The backend form of canonical display preferences, given which table entries they use. */
  lemma DisplayToBackend(d: Entries, j1: nat, j2: nat, j3: nat, j4: nat)
    requires j1 < |SweetnessLabels| && j2 < |BodyLabels| && j3 < |BudgetByRange| && j4 < |ExperienceLabels|
    requires GetOr(d, "sake_types", Null).List?
    requires forall k :: 0 <= k < |GetOr(d, "sake_types", Null).items| ==> IsFormType(GetOr(d, "sake_types", Null).items[k])
    requires GetOr(d, "sweetness", Null) == Str(SweetnessLabels[j1].1) && GetOr(d, "body", Null) == Str(BodyLabels[j2].1)
    requires GetOr(d, "price_range", Null) == Str(BudgetByRange[j3].0)
    requires GetOr(d, "experience_level", Null) == Str(ExperienceLabels[j4].1)
    ensures TranslateAll(SakeTypeCodes, GetOr(d, "sake_types", Null).items).Ok?
    ensures ToBackend(d) == Ok(BackendDict(TranslateAll(SakeTypeCodes, GetOr(d, "sake_types", Null).items).value,
                                           SweetnessLabels[j1].0, BodyLabels[j2].0, BudgetByRange[j3].1, ExperienceLabels[j4].0))
  {
    var types := GetOr(d, "sake_types", Null).items;
    FormTypesRoundTrip(types);
    ListFieldFound(d, "sake_types");
    var sweetness, richness, budget, experience := SweetnessLabels[j1].0, BodyLabels[j2].0, BudgetByRange[j3].1, ExperienceLabels[j4].0;
    assert GetText(SweetnessScale, GetOr(d, "sweetness", Str("中口")), DefaultScale) == Ok(sweetness) by {
      SweetnessGraded(j1);
      TextFieldFound(d, "sweetness", Str("中口"), SweetnessScale, DefaultScale, SweetnessLabels[j1].1, sweetness);
    }
    assert GetText(BodyScale, GetOr(d, "body", Str("中程度")), DefaultScale) == Ok(richness) by {
      BodyGraded(j2);
      TextFieldFound(d, "body", Str("中程度"), BodyScale, DefaultScale, BodyLabels[j2].1, richness);
    }
    assert GetText(BudgetByRange, GetOr(d, "price_range", Str("2,000～3,000円")), DefaultBudget) == Ok(budget) by {
      BudgetRoundTrip(j3);
      TextFieldFound(d, "price_range", Str("2,000～3,000円"), BudgetByRange, DefaultBudget, BudgetByRange[j3].0, budget);
    }
    assert GetText(ExperienceCodes, GetOr(d, "experience_level", Str("初めて")), DefaultExperienceCode) == Ok(experience) by {
      ExperienceCoded(j4);
      TextFieldFound(d, "experience_level", Str("初めて"), ExperienceCodes, DefaultExperienceCode, ExperienceLabels[j4].1, experience);
    }
    ToBackendOf(d, TranslateAll(SakeTypeCodes, types).value, sweetness, richness, budget, experience);
    ToBackendOf(d, TranslateAll(SakeTypeCodes, types).value, SweetnessLabels[j1].0, BodyLabels[j2].0, BudgetByRange[j3].1, ExperienceLabels[j4].0);
  }

  /** The display form of canonical backend preferences, given which table entries they use. */
  lemma BackendToDisplay(b: Entries, j1: nat, j2: nat, j3: nat, j4: nat)
    requires j1 < |SweetnessLabels| && j2 < |BodyLabels| && j3 < |BudgetByRange| && j4 < |ExperienceLabels|
    requires GetOr(b, "categories", Null).List?
    requires forall k :: 0 <= k < |GetOr(b, "categories", Null).items| ==> IsStoredType(GetOr(b, "categories", Null).items[k])
    requires GetOr(b, "sweetness", Null) == Int(SweetnessLabels[j1].0) && GetOr(b, "richness", Null) == Int(BodyLabels[j2].0)
    requires GetOr(b, "budget", Null) == Int(BudgetByRange[j3].1)
    requires GetOr(b, "experience_level", Null) == Str(ExperienceLabels[j4].0)
    ensures TranslateAll(SakeTypeLabels, GetOr(b, "categories", Null).items).Ok?
    ensures ToDisplay(b) == Ok(DisplayDict(TranslateAll(SakeTypeLabels, GetOr(b, "categories", Null).items).value,
                                           SweetnessLabels[j1].1, BodyLabels[j2].1, BudgetByRange[j3].0,
                                           ExperienceLabels[j4].1, FormOnlyOf(b)))
  {
    var categories := GetOr(b, "categories", Null).items;
    StoredTypesRoundTrip(categories);
    ListFieldFound(b, "categories");
    var sweetness, body, priceRange, experience := SweetnessLabels[j1].1, BodyLabels[j2].1, BudgetByRange[j3].0, ExperienceLabels[j4].1;
    assert PriceRangeOf(b) == Ok(priceRange) by {
      BudgetRoundTrip(j3);
      assert HasKey(b, "budget");
    }
    assert GetInt(SweetnessLabels, GetOr(b, "sweetness", Int(3)), DefaultSweetnessLabel) == Ok(sweetness) by {
      SweetnessRoundTrip(j1);
      IntFieldFound(b, "sweetness", Int(3), SweetnessLabels, DefaultSweetnessLabel, SweetnessLabels[j1].0, sweetness);
    }
    assert GetInt(BodyLabels, GetOr(b, "richness", Int(3)), DefaultBodyLabel) == Ok(body) by {
      BodyRoundTrip(j2);
      IntFieldFound(b, "richness", Int(3), BodyLabels, DefaultBodyLabel, BodyLabels[j2].0, body);
    }
    assert GetText(ExperienceLabels, GetOr(b, "experience_level", Str("beginner")), DefaultExperienceLabel) == Ok(experience) by {
      ExperienceRoundTrip(j4);
      TextFieldFound(b, "experience_level", Str("beginner"), ExperienceLabels, DefaultExperienceLabel, ExperienceLabels[j4].0, experience);
    }
    ToDisplayOf(b, TranslateAll(SakeTypeLabels, categories).value, sweetness, body, priceRange, experience);
  }

  /** A backend dict built from table entries is canonical, and each field holds its entry. */
  lemma BackendDictCanonical(categories: seq<Value>, j1: nat, j2: nat, j3: nat, j4: nat)
    requires j1 < |SweetnessLabels| && j2 < |BodyLabels| && j3 < |BudgetByRange| && j4 < |ExperienceLabels|
    requires forall k :: 0 <= k < |categories| ==> IsStoredType(categories[k])
    ensures var b := BackendDict(categories, SweetnessLabels[j1].0, BodyLabels[j2].0, BudgetByRange[j3].1, ExperienceLabels[j4].0);
            && CanonicalBackend(b)
            && GetOr(b, "categories", Null) == List(categories)
            && GetOr(b, "sweetness", Null) == Int(SweetnessLabels[j1].0)
            && GetOr(b, "richness", Null) == Int(BodyLabels[j2].0)
            && GetOr(b, "budget", Null) == Int(BudgetByRange[j3].1)
            && GetOr(b, "experience_level", Null) == Str(ExperienceLabels[j4].0)
  {
    BackendDictFields(categories, SweetnessLabels[j1].0, BodyLabels[j2].0, BudgetByRange[j3].1, ExperienceLabels[j4].0);
  }

  /** A display dict built from table entries is canonical, and each field holds its entry. */
  lemma DisplayDictCanonical(types: seq<Value>, j1: nat, j2: nat, j3: nat, j4: nat, f: FormOnly)
    requires j1 < |SweetnessLabels| && j2 < |BodyLabels| && j3 < |BudgetByRange| && j4 < |ExperienceLabels|
    requires forall k :: 0 <= k < |types| ==> IsFormType(types[k])
    ensures var d := DisplayDict(types, SweetnessLabels[j1].1, BodyLabels[j2].1, BudgetByRange[j3].0, ExperienceLabels[j4].1, f);
            && CanonicalDisplay(d)
            && GetOr(d, "sake_types", Null) == List(types)
            && GetOr(d, "sweetness", Null) == Str(SweetnessLabels[j1].1)
            && GetOr(d, "body", Null) == Str(BodyLabels[j2].1)
            && GetOr(d, "price_range", Null) == Str(BudgetByRange[j3].0)
            && GetOr(d, "experience_level", Null) == Str(ExperienceLabels[j4].1)
  {
    DisplayDictFields(types, SweetnessLabels[j1].1, BodyLabels[j2].1, BudgetByRange[j3].0, ExperienceLabels[j4].1, f);
  }

  /** Canonical form preferences always convert to the backend's terms. */
  lemma CanonicalDisplayConverts(d: Entries)
    requires CanonicalDisplay(d)
    ensures ToBackend(d).Ok?
    ensures GetOr(ToBackend(d).value, "avoid_categories", Null) == List([])
  {
    var j1 :| 0 <= j1 < |SweetnessLabels| && GetOr(d, "sweetness", Null) == Str(SweetnessLabels[j1].1);
    var j2 :| 0 <= j2 < |BodyLabels| && GetOr(d, "body", Null) == Str(BodyLabels[j2].1);
    var j3 :| 0 <= j3 < |BudgetByRange| && GetOr(d, "price_range", Null) == Str(BudgetByRange[j3].0);
    var j4 :| 0 <= j4 < |ExperienceLabels| && GetOr(d, "experience_level", Null) == Str(ExperienceLabels[j4].1);
    DisplayToBackend(d, j1, j2, j3, j4);
    var categories := TranslateAll(SakeTypeCodes, GetOr(d, "sake_types", Null).items).value;
    var b := BackendDict(categories, SweetnessLabels[j1].0, BodyLabels[j2].0, BudgetByRange[j3].1, ExperienceLabels[j4].0);
    BackendDictFields(categories, SweetnessLabels[j1].0, BodyLabels[j2].0, BudgetByRange[j3].1, ExperienceLabels[j4].0);
    GetFound(b, "avoid_categories");
  }

  /**
   * Canonical form preferences survive a trip to the backend and back: the sake types,
   * sweetness, body, price range and experience level come back as they were.
   */
  lemma DisplayRoundTrip(d: Entries)
    requires CanonicalDisplay(d)
    ensures ToBackend(d).Ok? && CanonicalBackend(ToBackend(d).value)
    ensures ToDisplay(ToBackend(d).value).Ok?
    ensures var back := ToDisplay(ToBackend(d).value).value;
            && GetOr(back, "sake_types", Null) == GetOr(d, "sake_types", Null)
            && GetOr(back, "sweetness", Null) == GetOr(d, "sweetness", Null)
            && GetOr(back, "body", Null) == GetOr(d, "body", Null)
            && GetOr(back, "price_range", Null) == GetOr(d, "price_range", Null)
            && GetOr(back, "experience_level", Null) == GetOr(d, "experience_level", Null)
  {
    var j1 :| 0 <= j1 < |SweetnessLabels| && GetOr(d, "sweetness", Null) == Str(SweetnessLabels[j1].1);
    var j2 :| 0 <= j2 < |BodyLabels| && GetOr(d, "body", Null) == Str(BodyLabels[j2].1);
    var j3 :| 0 <= j3 < |BudgetByRange| && GetOr(d, "price_range", Null) == Str(BudgetByRange[j3].0);
    var j4 :| 0 <= j4 < |ExperienceLabels| && GetOr(d, "experience_level", Null) == Str(ExperienceLabels[j4].1);
    var types := GetOr(d, "sake_types", Null).items;
    DisplayToBackend(d, j1, j2, j3, j4);
    FormTypesRoundTrip(types);
    var categories := TranslateAll(SakeTypeCodes, types).value;
    var b := BackendDict(categories, SweetnessLabels[j1].0, BodyLabels[j2].0, BudgetByRange[j3].1, ExperienceLabels[j4].0);
    BackendDictCanonical(categories, j1, j2, j3, j4);
    BackendToDisplay(b, j1, j2, j3, j4);
    DisplayDictCanonical(types, j1, j2, j3, j4, FormOnlyOf(b));
  }

  /**
   * Canonical backend preferences survive a trip to the form and back: the categories,
   * sweetness, richness, budget and experience level come back as they were.
   */
  lemma BackendRoundTrip(b: Entries)
    requires CanonicalBackend(b)
    ensures ToDisplay(b).Ok? && CanonicalDisplay(ToDisplay(b).value)
    ensures ToBackend(ToDisplay(b).value).Ok?
    ensures var back := ToBackend(ToDisplay(b).value).value;
            && GetOr(back, "categories", Null) == GetOr(b, "categories", Null)
            && GetOr(back, "sweetness", Null) == GetOr(b, "sweetness", Null)
            && GetOr(back, "richness", Null) == GetOr(b, "richness", Null)
            && GetOr(back, "budget", Null) == GetOr(b, "budget", Null)
            && GetOr(back, "experience_level", Null) == GetOr(b, "experience_level", Null)
  {
    var j1 :| 0 <= j1 < |SweetnessLabels| && GetOr(b, "sweetness", Null) == Int(SweetnessLabels[j1].0);
    var j2 :| 0 <= j2 < |BodyLabels| && GetOr(b, "richness", Null) == Int(BodyLabels[j2].0);
    var j3 :| 0 <= j3 < |BudgetByRange| && GetOr(b, "budget", Null) == Int(BudgetByRange[j3].1);
    var j4 :| 0 <= j4 < |ExperienceLabels| && GetOr(b, "experience_level", Null) == Str(ExperienceLabels[j4].0);
    var categories := GetOr(b, "categories", Null).items;
    BackendToDisplay(b, j1, j2, j3, j4);
    StoredTypesRoundTrip(categories);
    var types := TranslateAll(SakeTypeLabels, categories).value;
    var d := DisplayDict(types, SweetnessLabels[j1].1, BodyLabels[j2].1, BudgetByRange[j3].0, ExperienceLabels[j4].1, FormOnlyOf(b));
    DisplayDictCanonical(types, j1, j2, j3, j4, FormOnlyOf(b));
    DisplayToBackend(d, j1, j2, j3, j4);
    BackendDictCanonical(categories, j1, j2, j3, j4);
  }

  /** The display direction's result, built from each field's lookup. */
  lemma DisplayParts(prefs: Entries)
    requires ToDisplay(prefs).Ok?
    ensures PriceRangeOf(prefs).Ok?
    ensures GetInt(SweetnessLabels, GetOr(prefs, "sweetness", Int(3)), DefaultSweetnessLabel).Ok?
    ensures GetInt(BodyLabels, GetOr(prefs, "richness", Int(3)), DefaultBodyLabel).Ok?
    ensures GetText(ExperienceLabels, GetOr(prefs, "experience_level", Str("beginner")), DefaultExperienceLabel).Ok?
    ensures exists types ::
              ToDisplay(prefs).value == DisplayDict(types,
                GetInt(SweetnessLabels, GetOr(prefs, "sweetness", Int(3)), DefaultSweetnessLabel).value,
                GetInt(BodyLabels, GetOr(prefs, "richness", Int(3)), DefaultBodyLabel).value,
                PriceRangeOf(prefs).value,
                GetText(ExperienceLabels, GetOr(prefs, "experience_level", Str("beginner")), DefaultExperienceLabel).value,
                FormOnlyOf(prefs))
  {
    var categories := ItemsOf(GetOr(prefs, "categories", List([]))).value;
    var types := TranslateAll(SakeTypeLabels, categories).value;
    assert ToDisplay(prefs).value == DisplayDict(types,
                GetInt(SweetnessLabels, GetOr(prefs, "sweetness", Int(3)), DefaultSweetnessLabel).value,
                GetInt(BodyLabels, GetOr(prefs, "richness", Int(3)), DefaultBodyLabel).value,
                PriceRangeOf(prefs).value,
                GetText(ExperienceLabels, GetOr(prefs, "experience_level", Str("beginner")), DefaultExperienceLabel).value,
                FormOnlyOf(prefs));
  }

  /**
   * A grade, body or experience level the tables do not know, or one that is missing,
   * is shown as 中口, 中程度 and 月に1回程度; a missing budget as 2,000～3,000円.
   */
  lemma DisplayFallbacks(prefs: Entries)
    requires ToDisplay(prefs).Ok?
    ensures FindInt(SweetnessLabels, GetOr(prefs, "sweetness", Int(3))).None? || !HasKey(prefs, "sweetness")
            ==> GetOr(ToDisplay(prefs).value, "sweetness", Null) == Str(DefaultSweetnessLabel)
    ensures FindInt(BodyLabels, GetOr(prefs, "richness", Int(3))).None? || !HasKey(prefs, "richness")
            ==> GetOr(ToDisplay(prefs).value, "body", Null) == Str(DefaultBodyLabel)
    ensures FindText(ExperienceLabels, GetOr(prefs, "experience_level", Str("beginner"))).None? || !HasKey(prefs, "experience_level")
            ==> GetOr(ToDisplay(prefs).value, "experience_level", Null) == Str(DefaultExperienceLabel)
    ensures !HasKey(prefs, "budget") ==> GetOr(ToDisplay(prefs).value, "price_range", Null) == Str("2,000～3,000円")
  {
    DisplayParts(prefs);
    var types :| ToDisplay(prefs).value == DisplayDict(types,
                GetInt(SweetnessLabels, GetOr(prefs, "sweetness", Int(3)), DefaultSweetnessLabel).value,
                GetInt(BodyLabels, GetOr(prefs, "richness", Int(3)), DefaultBodyLabel).value,
                PriceRangeOf(prefs).value,
                GetText(ExperienceLabels, GetOr(prefs, "experience_level", Str("beginner")), DefaultExperienceLabel).value,
                FormOnlyOf(prefs));
    DisplayDictFields(types,
                GetInt(SweetnessLabels, GetOr(prefs, "sweetness", Int(3)), DefaultSweetnessLabel).value,
                GetInt(BodyLabels, GetOr(prefs, "richness", Int(3)), DefaultBodyLabel).value,
                PriceRangeOf(prefs).value,
                GetText(ExperienceLabels, GetOr(prefs, "experience_level", Str("beginner")), DefaultExperienceLabel).value,
                FormOnlyOf(prefs));
    SweetnessRoundTrip(2);
    BodyRoundTrip(2);
    ExperienceRoundTrip(0);
  }

  /** Where each form-only field of the display dict comes from, field by field. */
  lemma DisplayFormFields(sakeTypes: seq<Value>, sweetness: string, body: string, priceRange: string,
                          experience: string, f: FormOnly)
    ensures Get(DisplayDict(sakeTypes, sweetness, body, priceRange, experience, f), "aroma_preference") == Some(f.aroma)
    ensures Get(DisplayDict(sakeTypes, sweetness, body, priceRange, experience, f), "drinking_scene") == Some(f.scene)
    ensures Get(DisplayDict(sakeTypes, sweetness, body, priceRange, experience, f), "food_pairing") == Some(f.food)
    ensures Get(DisplayDict(sakeTypes, sweetness, body, priceRange, experience, f), "temperature_preference") == Some(f.temperature)
    ensures Get(DisplayDict(sakeTypes, sweetness, body, priceRange, experience, f), "knowledge_level") == Some(f.knowledge)
    ensures Get(DisplayDict(sakeTypes, sweetness, body, priceRange, experience, f), "other_preferences") == Some(f.other)
  {
    var e5 := FormOnlyItems(f);
    var e4 := Item("experience_level", Str(experience), e5);
    var e3 := Item("price_range", Str(priceRange), e4);
    var e2 := Item("body", Str(body), e3);
    var e1 := Item("sweetness", Str(sweetness), e2);
    var e0 := Item("sake_types", List(sakeTypes), e1);
    assert DisplayDict(sakeTypes, sweetness, body, priceRange, experience, f) == e0;
    FormOnlyItemsFields(f);
    assert Get(e0, "aroma_preference") == Some(f.aroma) by {
      GetItem("sake_types", List(sakeTypes), e1, "aroma_preference");
      GetItem("sweetness", Str(sweetness), e2, "aroma_preference");
      GetItem("body", Str(body), e3, "aroma_preference");
      GetItem("price_range", Str(priceRange), e4, "aroma_preference");
      GetItem("experience_level", Str(experience), e5, "aroma_preference");
    }
    assert Get(e0, "drinking_scene") == Some(f.scene) by {
      GetItem("sake_types", List(sakeTypes), e1, "drinking_scene");
      GetItem("sweetness", Str(sweetness), e2, "drinking_scene");
      GetItem("body", Str(body), e3, "drinking_scene");
      GetItem("price_range", Str(priceRange), e4, "drinking_scene");
      GetItem("experience_level", Str(experience), e5, "drinking_scene");
    }
    assert Get(e0, "food_pairing") == Some(f.food) by {
      GetItem("sake_types", List(sakeTypes), e1, "food_pairing");
      GetItem("sweetness", Str(sweetness), e2, "food_pairing");
      GetItem("body", Str(body), e3, "food_pairing");
      GetItem("price_range", Str(priceRange), e4, "food_pairing");
      GetItem("experience_level", Str(experience), e5, "food_pairing");
    }
    assert Get(e0, "temperature_preference") == Some(f.temperature) by {
      GetItem("sake_types", List(sakeTypes), e1, "temperature_preference");
      GetItem("sweetness", Str(sweetness), e2, "temperature_preference");
      GetItem("body", Str(body), e3, "temperature_preference");
      GetItem("price_range", Str(priceRange), e4, "temperature_preference");
      GetItem("experience_level", Str(experience), e5, "temperature_preference");
    }
    assert Get(e0, "knowledge_level") == Some(f.knowledge) by {
      GetItem("sake_types", List(sakeTypes), e1, "knowledge_level");
      GetItem("sweetness", Str(sweetness), e2, "knowledge_level");
      GetItem("body", Str(body), e3, "knowledge_level");
      GetItem("price_range", Str(priceRange), e4, "knowledge_level");
      GetItem("experience_level", Str(experience), e5, "knowledge_level");
    }
    assert Get(e0, "other_preferences") == Some(f.other) by {
      GetItem("sake_types", List(sakeTypes), e1, "other_preferences");
      GetItem("sweetness", Str(sweetness), e2, "other_preferences");
      GetItem("body", Str(body), e3, "other_preferences");
      GetItem("price_range", Str(priceRange), e4, "other_preferences");
      GetItem("experience_level", Str(experience), e5, "other_preferences");
    }
  }

  /**
   * The form-only fields are copied from the backend's dict when it has them; otherwise
   * the lists are shown empty, the knowledge level as 初心者 and the free text as "".
   */
  lemma FormOnlyDefaults(prefs: Entries)
    requires ToDisplay(prefs).Ok?
    ensures GetOr(ToDisplay(prefs).value, "aroma_preference", Null) == GetOr(prefs, "aroma_preference", List([]))
    ensures GetOr(ToDisplay(prefs).value, "drinking_scene", Null) == GetOr(prefs, "drinking_scene", List([]))
    ensures GetOr(ToDisplay(prefs).value, "food_pairing", Null) == GetOr(prefs, "food_pairing", List([]))
    ensures GetOr(ToDisplay(prefs).value, "temperature_preference", Null) == GetOr(prefs, "temperature_preference", List([]))
    ensures GetOr(ToDisplay(prefs).value, "knowledge_level", Null) == GetOr(prefs, "knowledge_level", Str("初心者"))
    ensures GetOr(ToDisplay(prefs).value, "other_preferences", Null) == GetOr(prefs, "other_preferences", Str(""))
    ensures !HasKey(prefs, "aroma_preference") ==> GetOr(ToDisplay(prefs).value, "aroma_preference", Null) == List([])
    ensures !HasKey(prefs, "knowledge_level") ==> GetOr(ToDisplay(prefs).value, "knowledge_level", Null) == Str("初心者")
    ensures !HasKey(prefs, "other_preferences") ==> GetOr(ToDisplay(prefs).value, "other_preferences", Null) == Str("")
  {
    DisplayParts(prefs);
    var types :| ToDisplay(prefs).value == DisplayDict(types,
                GetInt(SweetnessLabels, GetOr(prefs, "sweetness", Int(3)), DefaultSweetnessLabel).value,
                GetInt(BodyLabels, GetOr(prefs, "richness", Int(3)), DefaultBodyLabel).value,
                PriceRangeOf(prefs).value,
                GetText(ExperienceLabels, GetOr(prefs, "experience_level", Str("beginner")), DefaultExperienceLabel).value,
                FormOnlyOf(prefs));
    DisplayFormFields(types,
                GetInt(SweetnessLabels, GetOr(prefs, "sweetness", Int(3)), DefaultSweetnessLabel).value,
                GetInt(BodyLabels, GetOr(prefs, "richness", Int(3)), DefaultBodyLabel).value,
                PriceRangeOf(prefs).value,
                GetText(ExperienceLabels, GetOr(prefs, "experience_level", Str("beginner")), DefaultExperienceLabel).value,
                FormOnlyOf(prefs));
  }

  /**
   * A label the tables do not know, or one that is missing, is stored as grade 3, grade 3
   * and "beginner"; a missing price range as 2500 yen; and nothing is ever avoided.
   */
  lemma BackendFallbacks(prefs: Entries)
    requires ToBackend(prefs).Ok?
    ensures FindText(SweetnessScale, GetOr(prefs, "sweetness", Str("中口"))).None? || !HasKey(prefs, "sweetness")
            ==> GetOr(ToBackend(prefs).value, "sweetness", Null) == Int(DefaultScale)
    ensures FindText(BodyScale, GetOr(prefs, "body", Str("中程度"))).None? || !HasKey(prefs, "body")
            ==> GetOr(ToBackend(prefs).value, "richness", Null) == Int(DefaultScale)
    ensures FindText(ExperienceCodes, GetOr(prefs, "experience_level", Str("初めて"))).None? || !HasKey(prefs, "experience_level")
            ==> GetOr(ToBackend(prefs).value, "experience_level", Null) == Str(DefaultExperienceCode)
    ensures !HasKey(prefs, "price_range") ==> GetOr(ToBackend(prefs).value, "budget", Null) == Int(DefaultBudget)
    ensures GetOr(ToBackend(prefs).value, "avoid_categories", Null) == List([])
  {
    var types := ItemsOf(GetOr(prefs, "sake_types", List([]))).value;
    var categories := TranslateAll(SakeTypeCodes, types).value;
    var sweetness := GetText(SweetnessScale, GetOr(prefs, "sweetness", Str("中口")), DefaultScale).value;
    var richness := GetText(BodyScale, GetOr(prefs, "body", Str("中程度")), DefaultScale).value;
    var budget := GetText(BudgetByRange, GetOr(prefs, "price_range", Str("2,000～3,000円")), DefaultBudget).value;
    var experience := GetText(ExperienceCodes, GetOr(prefs, "experience_level", Str("初めて")), DefaultExperienceCode).value;
    var out := BackendDict(categories, sweetness, richness, budget, experience);
    assert ToBackend(prefs).value == out;
    BackendDictFields(categories, sweetness, richness, budget, experience);
    SweetnessDefault();
    BodyDefault();
    ExperienceDefault();
    BudgetDefault();
  }

  /** The form's default sweetness label converts to the default grade. */
  lemma SweetnessDefault()
    ensures GetText(SweetnessScale, Str("中口"), DefaultScale) == Ok(DefaultScale)
  {
    SweetnessGraded(2);
  }

  /** The form's default body label converts to the default grade. */
  lemma BodyDefault()
    ensures GetText(BodyScale, Str("中程度"), DefaultScale) == Ok(DefaultScale)
  {
    BodyGraded(2);
  }

  /** The form's default experience label converts to the default level. */
  lemma ExperienceDefault()
    ensures GetText(ExperienceCodes, Str("初めて"), DefaultExperienceCode) == Ok(DefaultExperienceCode)
  {
    assert FindText(ExperienceCodes, Str("初めて")) == Some("beginner");
  }

  /** The form's default price range converts to the default budget. */
  lemma BudgetDefault()
    ensures GetText(BudgetByRange, Str("2,000～3,000円"), DefaultBudget) == Ok(DefaultBudget)
  {
    BudgetRoundTrip(2);
  }

  /** Sake types the tables do not know pass through both directions, and the lists keep their length and order. */
  lemma TypeListsPreserved(items: seq<Value>, k: nat)
    requires k < |items|
    requires forall i :: 0 <= i < |items| ==> Hashable(items[i])
    ensures TranslateAll(SakeTypeLabels, items).Ok? && |TranslateAll(SakeTypeLabels, items).value| == |items|
    ensures TranslateAll(SakeTypeCodes, items).Ok? && |TranslateAll(SakeTypeCodes, items).value| == |items|
    ensures FindText(SakeTypeLabels, items[k]).None? ==> TranslateAll(SakeTypeLabels, items).value[k] == items[k]
    ensures FindText(SakeTypeCodes, items[k]).None? ==> TranslateAll(SakeTypeCodes, items).value[k] == items[k]
  {
    UnknownTypeKept(items[k]);
  }
}
