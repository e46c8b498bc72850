/** The Tanglish (romanised Tamil) vocabulary of the vegetable search box and
    the resolver that turns a typed word into its English vegetable name
    (frontend/src/utils/tanglishMap.js). */
module Tanglish {
  import opened Text

  /** The English names the table maps to. */
  predicate IsEnglishName(v: string) {
    v in {"onion", "shallot", "tomato", "potato", "brinjal", "eggplant", "ladyfinger", "okra", "coriander", "garlic", "ginger", "chilli", "green chilli"}
    || v in {"red chilli", "carrot", "beans", "cabbage", "cauliflower", "spinach", "greens", "drumstick", "bitter gourd", "bottle gourd", "ridge gourd", "snake gourd", "ash gourd"}
    || v in {"white pumpkin", "pumpkin", "cucumber", "radish", "beetroot", "lemon", "curry leaves", "mint", "green peas", "peas", "cluster beans"}
  }

  /** The English name of one Tanglish word, grouped by English name. */
  function EnglishOf(word: string): (v: string)
    ensures IsEnglishName(v)
  {
    if word in {"vengayam", "vengaya", "venkayam"} then "onion"
    else if word in {"sambar vengayam", "chinna vengayam"} then "shallot"
    else if word in {"thakkali", "thakali", "takkali"} then "tomato"
    else if word in {"urulaikizhangu", "urulai", "urulaikilangu"} then "potato"
    else if word in {"kathirikkai", "kathiri"} then "brinjal"
    else if word in {"katharikai"} then "eggplant"
    else if word in {"vendakkai"} then "ladyfinger"
    else if word in {"vendakai", "vendai"} then "okra"
    else if word in {"kothamalli", "kothimalli", "kothamalli ilai"} then "coriander"
    else if word in {"poondu", "vellaipoondu", "vellai poondu"} then "garlic"
    else if word in {"inji", "allam"} then "ginger"
    else if word in {"milagai", "milaga"} then "chilli"
    else if word in {"pachai milagai"} then "green chilli"
    else if word in {"sivappu milagai"} then "red chilli"
    else if word in {"carrot", "karot"} then "carrot"
    else if word in {"beans", "avarakkai", "avarakai"} then "beans"
    else if word in {"cabbage", "muttaikose", "muttai kose"} then "cabbage"
    else if word in {"cauliflower", "gobi"} then "cauliflower"
    else if word in {"palak", "pasalai keerai"} then "spinach"
    else if word in {"keerai"} then "greens"
    else if word in {"murungakkai", "murunga", "murungai"} then "drumstick"
    else if word in {"pavakkai", "pagarkai"} then "bitter gourd"
    else if word in {"sorakkai", "suraikai"} then "bottle gourd"
    else if word in {"peerkangai", "peerkankai"} then "ridge gourd"
    else if word in {"pudalangai", "pudal"} then "snake gourd"
    else if word in {"poosanikai"} then "ash gourd"
    else if word in {"pusanikai"} then "white pumpkin"
    else if word in {"parangikai", "parangi"} then "pumpkin"
    else if word in {"vellarikai", "vellari"} then "cucumber"
    else if word in {"mullangi", "mulangi"} then "radish"
    else if word in {"beetroot", "bit"} then "beetroot"
    else if word in {"elumichai", "elumicham pazham", "nimbu"} then "lemon"
    else if word in {"kariveppilai", "karivepilai", "karuveppilai"} then "curry leaves"
    else if word in {"pudina", "puthina"} then "mint"
    else if word in {"pattani"} then "green peas"
    else if word in {"patani"} then "peas"
    else /* kothavarangai or kothavarankai */ "cluster beans"
  }

  /** The 75 words of the table; each one maps to its English name. */
  const Table: map<string, string> :=
    map word | word in {"vengayam", "vengaya", "venkayam", "sambar vengayam", "chinna vengayam", "thakkali", "thakali", "takkali", "urulaikizhangu", "urulai", "urulaikilangu", "kathirikkai", "katharikai", "kathiri", "vendakkai", "vendakai", "vendai", "kothamalli", "kothimalli", "kothamalli ilai", "poondu", "vellaipoondu", "vellai poondu", "inji", "allam", "milagai", "milaga", "pachai milagai", "sivappu milagai", "carrot", "karot", "beans", "avarakkai", "avarakai", "cabbage", "muttaikose", "muttai kose", "cauliflower", "gobi", "palak", "keerai", "pasalai keerai", "murungakkai", "murunga", "murungai", "pavakkai", "pagarkai", "sorakkai", "suraikai", "peerkangai", "peerkankai", "pudalangai", "pudal", "poosanikai", "pusanikai", "parangikai", "parangi", "vellarikai", "vellari", "mullangi", "mulangi", "beetroot", "bit", "elumichai", "elumicham pazham", "nimbu", "kariveppilai", "karivepilai", "karuveppilai", "pudina", "puthina", "pattani", "patani", "kothavarangai", "kothavarankai"}
      :: EnglishOf(word)

  lemma EnglishNamesShape1()
    ensures forall v | v in {"onion", "shallot", "tomato", "potato"} :: v != "" && IsLowerCase(v) && IsTrimmed(v)
  {
  }

  lemma EnglishNamesShape2()
    ensures forall v | v in {"brinjal", "eggplant", "ladyfinger", "okra"} :: v != "" && IsLowerCase(v) && IsTrimmed(v)
  {
  }

  lemma EnglishNamesShape3()
    ensures forall v | v in {"coriander", "garlic", "ginger", "chilli"} :: v != "" && IsLowerCase(v) && IsTrimmed(v)
  {
  }

  lemma EnglishNamesShape4()
    ensures forall v | v in {"green chilli", "red chilli", "carrot", "beans"} :: v != "" && IsLowerCase(v) && IsTrimmed(v)
  {
  }

  lemma EnglishNamesShape5()
    ensures forall v | v in {"cabbage", "cauliflower", "spinach", "greens"} :: v != "" && IsLowerCase(v) && IsTrimmed(v)
  {
  }

  lemma EnglishNamesShape6()
    ensures forall v | v in {"drumstick", "bitter gourd", "bottle gourd", "ridge gourd"} :: v != "" && IsLowerCase(v) && IsTrimmed(v)
  {
  }

  lemma EnglishNamesShape7()
    ensures forall v | v in {"snake gourd", "ash gourd", "white pumpkin", "pumpkin"} :: v != "" && IsLowerCase(v) && IsTrimmed(v)
  {
  }

  lemma EnglishNamesShape8()
    ensures forall v | v in {"cucumber", "radish", "beetroot", "lemon"} :: v != "" && IsLowerCase(v) && IsTrimmed(v)
  {
  }

  lemma EnglishNamesShape9()
    ensures forall v | v in {"curry leaves", "mint", "green peas", "peas"} :: v != "" && IsLowerCase(v) && IsTrimmed(v)
  {
  }

  lemma EnglishNamesShape10()
    ensures forall v | v in {"cluster beans"} :: v != "" && IsLowerCase(v) && IsTrimmed(v)
  {
  }

  lemma WordsShape1()
    ensures forall k | k in {"vengayam", "vengaya", "venkayam", "sambar vengayam"} :: IsLowerCase(k) && IsTrimmed(k)
  {
  }

  lemma WordsShape2()
    ensures forall k | k in {"chinna vengayam", "thakkali", "thakali", "takkali"} :: IsLowerCase(k) && IsTrimmed(k)
  {
  }

  lemma WordsShape3()
    ensures forall k | k in {"urulaikizhangu", "urulai", "urulaikilangu", "kathirikkai"} :: IsLowerCase(k) && IsTrimmed(k)
  {
  }

  lemma WordsShape4()
    ensures forall k | k in {"katharikai", "kathiri", "vendakkai", "vendakai"} :: IsLowerCase(k) && IsTrimmed(k)
  {
  }

  lemma WordsShape5()
    ensures forall k | k in {"vendai", "kothamalli", "kothimalli", "kothamalli ilai"} :: IsLowerCase(k) && IsTrimmed(k)
  {
  }

  lemma WordsShape6()
    ensures forall k | k in {"poondu", "vellaipoondu", "vellai poondu", "inji"} :: IsLowerCase(k) && IsTrimmed(k)
  {
  }

  lemma WordsShape7()
    ensures forall k | k in {"allam", "milagai", "milaga", "pachai milagai"} :: IsLowerCase(k) && IsTrimmed(k)
  {
  }

  lemma WordsShape8()
    ensures forall k | k in {"sivappu milagai", "carrot", "karot", "beans"} :: IsLowerCase(k) && IsTrimmed(k)
  {
  }

  lemma WordsShape9()
    ensures forall k | k in {"avarakkai", "avarakai", "cabbage", "muttaikose"} :: IsLowerCase(k) && IsTrimmed(k)
  {
  }

  lemma WordsShape10()
    ensures forall k | k in {"muttai kose", "cauliflower", "gobi", "palak"} :: IsLowerCase(k) && IsTrimmed(k)
  {
  }

  lemma WordsShape11()
    ensures forall k | k in {"keerai", "pasalai keerai", "murungakkai", "murunga"} :: IsLowerCase(k) && IsTrimmed(k)
  {
  }

  lemma WordsShape12()
    ensures forall k | k in {"murungai", "pavakkai", "pagarkai", "sorakkai"} :: IsLowerCase(k) && IsTrimmed(k)
  {
  }

  lemma WordsShape13()
    ensures forall k | k in {"suraikai", "peerkangai", "peerkankai", "pudalangai"} :: IsLowerCase(k) && IsTrimmed(k)
  {
  }

  lemma WordsShape14()
    ensures forall k | k in {"pudal", "poosanikai", "pusanikai", "parangikai"} :: IsLowerCase(k) && IsTrimmed(k)
  {
  }

  lemma WordsShape15()
    ensures forall k | k in {"parangi", "vellarikai", "vellari", "mullangi"} :: IsLowerCase(k) && IsTrimmed(k)
  {
  }

  lemma WordsShape16()
    ensures forall k | k in {"mulangi", "beetroot", "bit", "elumichai"} :: IsLowerCase(k) && IsTrimmed(k)
  {
  }

  lemma WordsShape17()
    ensures forall k | k in {"elumicham pazham", "nimbu", "kariveppilai", "karivepilai"} :: IsLowerCase(k) && IsTrimmed(k)
  {
  }

  lemma WordsShape18()
    ensures forall k | k in {"karuveppilai", "pudina", "puthina", "pattani"} :: IsLowerCase(k) && IsTrimmed(k)
  {
  }

  lemma WordsShape19()
    ensures forall k | k in {"patani", "kothavarangai", "kothavarankai"} :: IsLowerCase(k) && IsTrimmed(k)
  {
  }

  lemma EnglishNotWords1()
    ensures forall v | v in {"onion", "shallot", "tomato", "potato", "brinjal", "eggplant", "ladyfinger", "okra", "coriander", "garlic", "ginger", "chilli", "green chilli", "red chilli", "spinach", "greens"} :: v !in Table
  {
  }

  lemma EnglishNotWords2()
    ensures forall v | v in {"drumstick", "bitter gourd", "bottle gourd", "ridge gourd", "snake gourd", "ash gourd", "white pumpkin", "pumpkin", "cucumber", "radish", "lemon", "curry leaves", "mint", "green peas", "peas", "cluster beans"} :: v !in Table
  {
  }

  lemma EnglishWordsMapToThemselves1(v: string)
    requires v == "carrot"
    ensures v in Table && Table[v] == v
  {
  }

  lemma EnglishWordsMapToThemselves2(v: string)
    requires v == "beans"
    ensures v in Table && Table[v] == v
  {
  }

  lemma EnglishWordsMapToThemselves3(v: string)
    requires v == "cabbage"
    ensures v in Table && Table[v] == v
  {
  }

  lemma EnglishWordsMapToThemselves4(v: string)
    requires v == "cauliflower"
    ensures v in Table && Table[v] == v
  {
  }

  lemma EnglishWordsMapToThemselves5(v: string)
    requires v == "beetroot"
    ensures v in Table && Table[v] == v
  {
  }

  lemma EnglishNameShape(v: string)
    requires IsEnglishName(v)
    ensures v != "" && IsLowerCase(v) && IsTrimmed(v)
  {
    EnglishNamesShape1();
    EnglishNamesShape2();
    EnglishNamesShape3();
    EnglishNamesShape4();
    EnglishNamesShape5();
    EnglishNamesShape6();
    EnglishNamesShape7();
    EnglishNamesShape8();
    EnglishNamesShape9();
    EnglishNamesShape10();
  }

  /** English names are fixed points of the table: either not a word of
      it, or a word that maps to itself. */
  lemma EnglishNameStable(v: string)
    requires IsEnglishName(v)
    ensures v !in Table || Table[v] == v
  {
    EnglishNotWords1();
    EnglishNotWords2();
    EnglishWordsMapToThemselves1("carrot");
    EnglishWordsMapToThemselves2("beans");
    EnglishWordsMapToThemselves3("cabbage");
    EnglishWordsMapToThemselves4("cauliflower");
    EnglishWordsMapToThemselves5("beetroot");
  }

  lemma WordShape(k: string)
    requires k in Table
    ensures IsLowerCase(k) && IsTrimmed(k)
  {
    WordsShape1();
    WordsShape2();
    WordsShape3();
    WordsShape4();
    WordsShape5();
    WordsShape6();
    WordsShape7();
    WordsShape8();
    WordsShape9();
    WordsShape10();
    WordsShape11();
    WordsShape12();
    WordsShape13();
    WordsShape14();
    WordsShape15();
    WordsShape16();
    WordsShape17();
    WordsShape18();
    WordsShape19();
  }

  /** `searchWithTanglish`: lower-case and trim the term, then replace it by
      its English name when the table has a truthy entry for it. */
  function Resolve(term: string): (r: string)
  {
    var n := Normalize(term);
    if n in Table && Table[n] != "" then Table[n] else n
  }

  /** The truthiness test on the entry is the same as membership: every
      entry is a non-empty English name. */
  lemma {:induction false} ResolveSpec(term: string)
    ensures Normalize(term) in Table ==> Resolve(term) == Table[Normalize(term)]
    ensures Normalize(term) !in Table ==> Resolve(term) == Normalize(term)
    ensures Normalize(term) in Table ==> IsEnglishName(Resolve(term))
  {
    var n := Normalize(term);
    if n in Table {
      EnglishNameShape(Table[n]);
    }
  }

  /** The resolver's answer is always lower case and trimmed. */
  lemma {:induction false} ResolveShape(term: string)
    ensures IsLowerCase(Resolve(term)) && IsTrimmed(Resolve(term))
  {
    ResolveSpec(term);
    NormalizeShape(term);
    if Normalize(term) in Table {
      EnglishNameShape(Resolve(term));
    }
  }

  /** A term is looked up by its normal form. */
  lemma {:induction false} ResolveByNormalForm(term: string, word: string)
    requires Normalize(term) == word && word in Table
    ensures Resolve(term) == Table[word]
  {
    ResolveSpec(term);
  }

  /** Every word of the table is found when typed as it is listed. */
  lemma {:induction false} EveryWordResolves(word: string)
    requires word in Table
    ensures Resolve(word) == Table[word]
  {
    WordShape(word);
    NormalizeFixes(word);
    ResolveSpec(word);
  }

  /** A lower-case, trimmed term that the table leaves alone resolves to itself. */
  lemma {:induction false} ResolveFixes(r: string)
    requires IsLowerCase(r) && IsTrimmed(r)
    requires r !in Table || Table[r] == r
    ensures Resolve(r) == r
  {
    NormalizeFixes(r);
  }

  /** Resolving twice gives the same as resolving once. */
  lemma {:induction false} ResolveIdempotent(term: string)
    ensures Resolve(Resolve(term)) == Resolve(term)
  {
    var r := Resolve(term);
    ResolveShape(term);
    ResolveSpec(term);
    if Normalize(term) in Table {
      EnglishNameStable(r);
    }
    ResolveFixes(r);
  }

  /** Terms that differ only in case and surrounding white space resolve alike. */
  lemma ResolveIgnoresCaseAndSpace(a: string, b: string)
    requires Normalize(a) == Normalize(b)
    ensures Resolve(a) == Resolve(b)
  {
  }

  /** The three spellings of onion resolve to the same English name. */
  lemma {:induction false} OnionSpellings()
    ensures Resolve("vengayam") == Resolve("vengaya") == Resolve("venkayam") == "onion"
  {
    EveryWordResolves("vengayam");
    EveryWordResolves("vengaya");
    EveryWordResolves("venkayam");
  }

  lemma ThakkaliIsTomato()
    ensures "thakkali" in Table && Table["thakkali"] == "tomato"
  {
  }

  lemma BitIsBeetroot()
    ensures "bit" in Table && Table["bit"] == "beetroot"
  {
  }

  /** Case and surrounding spaces are ignored before the lookup. */
  lemma {:induction false} ResolveMixedCase(term: string)
    requires term == " Bit "
    ensures Resolve(term) == "beetroot"
  {
    NormalizeMixedCase();
    BitIsBeetroot();
    ResolveByNormalForm(term, "bit");
  }

  /** A word outside the table comes back as typed. */
  lemma EmptyIsNotAWord()
    ensures "" !in Table
  {
  }

  lemma XyzNotAWord()
    ensures "xyz" !in Table && IsLowerCase("xyz") && IsTrimmed("xyz")
  {
  }

  lemma {:induction false} ResolveUnknownWord(term: string)
    requires term == "xyz"
    ensures Resolve(term) == term
  {
    XyzNotAWord();
    NormalizeFixes(term);
    ResolveSpec(term);
  }
}
