/** The records of fetch_cats.py: the Weight and Age tuples, the cache-entry
    dictionaries written by `Cat.to_dict` and read by `Cat.parse_dict`, and the
    `Cat` object whose methods fill in its fields from a cache entry or from the
    extracted text of a profile page. */
module Records {
  import opened Wrappers
  import opened Text
  import opened WeightScan

  const URL_BASE: string := "https://www.sfspca.org"
  const UNKNOWN: string := "Unknown"

  /** `Age(str, int)`; the number is always 0 when parsed from a page. */
  datatype Age = Age(text: string, value: int)

  /** `Weight(str, int, lb, oz)`: display text, total ounces, pounds, ounces. */
  datatype Weight = Weight(text: string, total: int, lb: int, oz: int)

  /** What a Weight promises when the program itself computed it. */
  predicate WellFormed(w: Weight)
  {
    w.lb >= 0 && w.oz >= 0 && w.total == w.lb * 16 + w.oz
  }

  /** The parsed fields of one cat: `name`, `age` and `weight`. */
  datatype Fields = Fields(name: string, age: Age, weight: Weight)

  /** One cat as the ranking sees it: its profile path, its full URL and its fields. */
  datatype CatRecord = CatRecord(profileUrl: string, url: string, fields: Fields)

  /** The text nodes the three XPath queries of a profile page return: the title
      `h1`, the age field and the weight field.  Only the first of each is used. */
  datatype ProfilePage = ProfilePage(titles: seq<string>, ages: seq<string>, weights: seq<string>)

  /** The JSON values a cache entry is made of. */
  datatype Json = JStr(str: string) | JInt(num: int) | JObject(members: map<string, Json>)

  /** The exceptions that abort the program while a Cat is built. */
  datatype CatError =
    | FetchFailed(url: string)     // requests.get raised
    | MissingTitle(url: string)    // the title XPath was empty: `[0]` raised IndexError
    | NotAnObject                  // `cache['name']` on a value that is not a dict
    | MissingKey(key: string)      // `cache[key]` raised KeyError
    | BadFields(key: string)       // `Age(**...)` / `Weight(**...)` raised TypeError
    | BadValue(key: string)        // a value of a type the record does not hold

  // ---------------------------------------------------------------- profile pages

  /** `Cat.parse_age` on the age field's text nodes. */
  function AgeOf(ages: seq<string>): (a: Age)
    ensures a.value == 0
    ensures |ages| == 0 ==> a.text == UNKNOWN
    ensures |ages| > 0 ==> a.text == Strip(ages[0])
  {
    if |ages| > 0 then Age(Strip(ages[0]), 0) else Age(UNKNOWN, 0)
  }

  /** The weight computed from the stripped weight text (lines 54-60): pounds and
      ounces each from the leftmost match of their own pattern, 0 without one. */
  function WeightFromText(text: string): (w: Weight)
    ensures WellFormed(w) && w.text == text
    ensures w.lb == Quantity(text, Pounds) && w.oz == Quantity(text, Ounces)
  {
    var lb := Quantity(text, Pounds);
    var oz := Quantity(text, Ounces);
    Weight(text, lb * 16 + oz, lb, oz)
  }

  const UNKNOWN_WEIGHT: Weight := Weight(UNKNOWN, 0, 0, 0)

  /** `Cat.parse_weight` on the weight field's text nodes. */
  function WeightOf(weights: seq<string>): (w: Weight)
    ensures |weights| == 0 ==> w == UNKNOWN_WEIGHT
    ensures |weights| > 0 ==> w.text == Strip(weights[0])
  {
    if |weights| > 0 then WeightFromText(Strip(weights[0])) else UNKNOWN_WEIGHT
  }

  /** Every weight read from a page keeps total == 16 * lb + oz with both parts natural. */
  lemma WeightOfWellFormed(weights: seq<string>)
    ensures WellFormed(WeightOf(weights))
  {
    if |weights| > 0 {
      var w := WeightFromText(Strip(weights[0]));
      assert WellFormed(w);
    }
  }

  /** "5 lbs. 3 oz." is 83 ounces, "5 lbs." is 80, and "5 lbs" (no period) has no pounds. */
  lemma WeightExamples()
    ensures WeightFromText("5 lbs. 3 oz.") == Weight("5 lbs. 3 oz.", 83, 5, 3)
    ensures WeightFromText("5 lbs.") == Weight("5 lbs.", 80, 5, 0)
    ensures WeightFromText("5 lbs").lb == 0
  {
    PoundsOfPoundsAndOunces();
    OuncesOfPoundsAndOunces();
    PoundsOnly();
    PeriodIsRequired();
  }

  /** The fields read from a fetched profile page; a page without a title raises. */
  function ParseProfile(url: string, page: ProfilePage): (r: Result<Fields, CatError>)
    ensures r.Failure? <==> |page.titles| == 0
    ensures r.Failure? ==> r.error == MissingTitle(url)
    ensures r.Success? ==> r.value.name == Strip(page.titles[0]) && WellFormed(r.value.weight)
  {
    if |page.titles| == 0 then Failure(MissingTitle(url))
    else WeightOfWellFormed(page.weights); Success(Fields(Strip(page.titles[0]), AgeOf(page.ages), WeightOf(page.weights)))
  }

  // ---------------------------------------------------------------- cache entries

  function EncodeAge(a: Age): Json
  {
    JObject(map["str" := JStr(a.text), "int" := JInt(a.value)])
  }

  function EncodeWeight(w: Weight): Json
  {
    JObject(map["str" := JStr(w.text), "int" := JInt(w.total), "lb" := JInt(w.lb), "oz" := JInt(w.oz)])
  }

  /** `Cat.to_dict`: the entry stored in the cache under the cat's profile path. */
  function EncodeFields(profileUrl: string, f: Fields): Json
  {
    JObject(map["name" := JStr(f.name), "url" := JStr(profileUrl),
                "age" := EncodeAge(f.age), "weight" := EncodeWeight(f.weight)])
  }

  /** `Age(**d)`: d must be a dict with exactly the keys "str" and "int". */
  function DecodeAge(j: Json): (r: Result<Age, CatError>)
    ensures r.Success? ==> j == EncodeAge(r.value)
  {
    match j
    case JObject(m) =>
      if m.Keys != {"str", "int"} then Failure(BadFields("age"))
      else if !m["str"].JStr? || !m["int"].JInt? then Failure(BadValue("age"))
      else (assert m == map["str" := m["str"], "int" := m["int"]];
            Success(Age(m["str"].str, m["int"].num)))
    case _ => Failure(BadFields("age"))
  }

  /** `Weight(**d)`: d must be a dict with exactly the keys "str", "int", "lb" and "oz". */
  function DecodeWeight(j: Json): (r: Result<Weight, CatError>)
    ensures r.Success? ==> j == EncodeWeight(r.value)
  {
    match j
    case JObject(m) =>
      if m.Keys != {"str", "int", "lb", "oz"} then Failure(BadFields("weight"))
      else if !m["str"].JStr? || !m["int"].JInt? || !m["lb"].JInt? || !m["oz"].JInt? then Failure(BadValue("weight"))
      else (assert m == map["str" := m["str"], "int" := m["int"], "lb" := m["lb"], "oz" := m["oz"]];
            Success(Weight(m["str"].str, m["int"].num, m["lb"].num, m["oz"].num)))
    case _ => Failure(BadFields("weight"))
  }

  /** `Cat.parse_dict`: name, age and weight read in that order, the first problem
      raising; the "url" key and any other key are ignored. */
  function DecodeFields(j: Json): (r: Result<Fields, CatError>)
    ensures r.Success? ==> j.JObject? && "name" in j.members && "age" in j.members && "weight" in j.members
    ensures r.Success? ==> j.members["name"] == JStr(r.value.name)
    ensures r.Success? ==> j.members["age"] == EncodeAge(r.value.age)
    ensures r.Success? ==> j.members["weight"] == EncodeWeight(r.value.weight)
  {
    match j
    case JObject(m) =>
      if "name" !in m then Failure(MissingKey("name"))
      else if !m["name"].JStr? then Failure(BadValue("name"))
      else if "age" !in m then Failure(MissingKey("age"))
      else (
        match DecodeAge(m["age"])
        case Failure(e) => Failure(e)
        case Success(a) =>
          if "weight" !in m then Failure(MissingKey("weight"))
          else (
            match DecodeWeight(m["weight"])
            case Failure(e) => Failure(e)
            case Success(w) => Success(Fields(m["name"].str, a, w))))
    case _ => Failure(NotAnObject)
  }

  /** Loading what `to_dict` stored gives back the same name, age and weight. */
  lemma DecodeEncode(profileUrl: string, f: Fields)
    ensures DecodeFields(EncodeFields(profileUrl, f)) == Success(f)
  {
  }

  /** The stored "url" key plays no part in loading an entry. */
  lemma DecodeIgnoresUrl(m: map<string, Json>, v: Json)
    ensures DecodeFields(JObject(m["url" := v])) == DecodeFields(JObject(m))
  {
    var m' := m["url" := v];
    assert "name" in m' <==> "name" in m;
    assert "age" in m' <==> "age" in m;
    assert "weight" in m' <==> "weight" in m;
  }

  /** Where the fields of a cat come from (`Cat.__init__`, lines 24-33): the cache
      entry when there is one, otherwise the profile page fetched from `url`. */
  function LoadFields(url: string, cache: Option<Json>, fetch: string -> Option<ProfilePage>): Result<Fields, CatError>
  {
    match cache
    case Some(j) => DecodeFields(j)
    case None =>
      match fetch(url)
      case None => Failure(FetchFailed(url))
      case Some(page) => ParseProfile(url, page)
  }

  /** A cached cat is built without touching the network: the fetch function does not matter. */
  lemma CachedLoadIgnoresFetch(url: string, j: Json, f1: string -> Option<ProfilePage>, f2: string -> Option<ProfilePage>)
    ensures LoadFields(url, Some(j), f1) == LoadFields(url, Some(j), f2)
    ensures LoadFields(url, Some(j), f1) == DecodeFields(j)
  {
  }

  /** Caching loses nothing: a cat parsed from a page and stored with `to_dict`
      loads from the cache, on the next run, with the very same fields. */
  lemma CacheReproducesPage(url: string, profileUrl: string, fetch: string -> Option<ProfilePage>,
                            later: string -> Option<ProfilePage>)
    requires LoadFields(url, None, fetch).Success?
    ensures LoadFields(url, Some(EncodeFields(profileUrl, LoadFields(url, None, fetch).value)), later)
         == LoadFields(url, None, fetch)
  {
    DecodeEncode(profileUrl, LoadFields(url, None, fetch).value);
  }

  // ---------------------------------------------------------------- the report line

  /** The text before the URL in `Cat.__str__`. */
  function Label(f: Fields): string
  {
    f.name + ", age " + f.age.text + " - " + f.weight.text + ":"
  }

  /** `Cat.__str__`: the label left-aligned in 40 columns, then ": " and the full URL. */
  function Render(r: CatRecord): (s: string)
    ensures var c := if |Label(r.fields)| < 40 then 40 else |Label(r.fields)|;
            |s| == c + 2 + |r.url| && s[..|Label(r.fields)|] == Label(r.fields) &&
            (forall k :: |Label(r.fields)| <= k < c ==> s[k] == ' ') &&
            s[c..c + 2] == ": " && s[c + 2..] == r.url
  {
    PadRight(Label(r.fields), 40) + ": " + r.url
  }

  // ---------------------------------------------------------------- the Cat object

  class Cat {
    const profileUrl: string
    const urlBase: string
    const url: string
    var tree: Option<ProfilePage>
    var name: string
    var age: Age
    var weight: Weight

    /** Lines 19-22: the profile path, the site and the full URL of the cat. */
    constructor (profileUrl: string, urlBase: string)
      ensures this.profileUrl == profileUrl && this.urlBase == urlBase
      ensures url == urlBase + profileUrl
      ensures tree == None
    {
      this.profileUrl := profileUrl;
      this.urlBase := urlBase;
      this.url := urlBase + profileUrl;
      tree := None;
      name := "";
      age := Age(UNKNOWN, 0);
      weight := UNKNOWN_WEIGHT;
    }

    /** The name, age and weight the cat holds. */
    function Parsed(): Fields
      reads this
    {
      Fields(name, age, weight)
    }

    /** The value the rest of the program reads from this cat. */
    function Record(): CatRecord
      reads this
    {
      CatRecord(profileUrl, url, Parsed())
    }

    /** The rest of `Cat.__init__` (lines 24-33): fill in the fields from the cache
        entry, or fetch the page and parse it.  An exception is returned as an error. */
    method Load(cache: Option<Json>, fetch: string -> Option<ProfilePage>) returns (err: Option<CatError>)
      modifies this
      ensures match LoadFields(url, cache, fetch)
              case Success(f) => err == None && Parsed() == f
              case Failure(e) => err == Some(e)
      ensures cache.Some? ==> tree == None
      ensures cache.None? && fetch(url).Some? ==> tree == fetch(url)
    {
      if cache.Some? {
        err := ParseDict(cache.value);
        return;
      }
      var response := fetch(url);
      if response.None? {
        return Some(FetchFailed(url));
      }
      tree := response;
      if |response.value.titles| == 0 {
        return Some(MissingTitle(url));
      }
      name := Strip(response.value.titles[0]);
      ParseAge();
      ParseWeight();
      err := None;
    }

    /** `Cat.parse_dict`. */
    method ParseDict(cache: Json) returns (err: Option<CatError>)
      modifies this
      ensures tree == None
      ensures match DecodeFields(cache)
              case Success(f) => err == None && Parsed() == f
              case Failure(e) => err == Some(e)
    {
      tree := None;
      match DecodeFields(cache)
      case Failure(e) =>
        err := Some(e);
      case Success(f) =>
        name, age, weight := f.name, f.age, f.weight;
        err := None;
    }

    /** `Cat.parse_age`: only the age changes. */
    method ParseAge()
      requires tree.Some?
      modifies this
      ensures tree == old(tree) && name == old(name) && weight == old(weight)
      ensures age == AgeOf(tree.value.ages)
    {
      var ages := tree.value.ages;
      if |ages| > 0 {
        age := Age(Strip(ages[0]), 0);
      } else {
        age := Age(UNKNOWN, 0);
      }
    }

    /** `Cat.parse_weight`: only the weight changes. */
    method ParseWeight()
      requires tree.Some?
      modifies this
      ensures tree == old(tree) && name == old(name) && age == old(age)
      ensures weight == WeightOf(tree.value.weights)
    {
      weight := WeightOf(tree.value.weights);
    }

    /** `Cat.to_dict`: an entry that loads back to this cat's fields. */
    function ToDict(): (j: Json)
      reads this
      ensures DecodeFields(j) == Success(Parsed())
      ensures j.JObject? && "url" in j.members && j.members["url"] == JStr(profileUrl)
    {
      EncodeFields(profileUrl, Parsed())
    }

    /** `Cat.__str__`. */
    function Str(): string
      reads this
    {
      Render(Record())
    }
  }

  /** `Cat(url, url_base, cache)`: a new cat, or the exception its construction raised. */
  method NewCat(profileUrl: string, urlBase: string, cache: Option<Json>, fetch: string -> Option<ProfilePage>)
    returns (r: Result<Cat, CatError>)
    ensures match LoadFields(urlBase + profileUrl, cache, fetch)
            case Success(f) => r.Success? && fresh(r.value) &&
                               r.value.Record() == CatRecord(profileUrl, urlBase + profileUrl, f)
            case Failure(e) => r == Failure(e)
  {
    var cat := new Cat(profileUrl, urlBase);
    var err := cat.Load(cache, fetch);
    if err.Some? {
      return Failure(err.value);
    }
    return Success(cat);
  }
}
