/**
 * The class-name standardisation of the confidence evaluation: a per-crop
 * table from dataset folder names to `<crop>_<name>` identifiers, and a
 * textual fallback for names the table does not know.
 */
module StandardizeNames {
  import opened Text

  /** The identifiers of each crop's dataset folders. */
  const RiceNames: map<string, string> := map[
    "Nitrogen(N)" := "rice_nitrogen",
    "Phosphorus(P)" := "rice_phosphorus",
    "Potassium(K)" := "rice_potassium"
  ]

  const WheatNames: map<string, string> := map[
    "control" := "wheat_control",
    "deficiency" := "wheat_deficiency"
  ]

  const MaizeNames: map<string, string> := map[
    "ALL Present" := "maize_all_present",
    "ALLAB" := "maize_allab",
    "KAB" := "maize_kab",
    "NAB" := "maize_nab",
    "PAB" := "maize_pab",
    "ZNAB" := "maize_znab"
  ]

  const BananaNames: map<string, string> := map[
    "healthy" := "banana_healthy",
    "magnesium" := "banana_magnesium",
    "potassium" := "banana_potassium"
  ]

  const CoffeeNames: map<string, string> := map[
    "healthy" := "coffee_healthy",
    "nitrogen-N" := "coffee_nitrogen_n",
    "phosphorus-P" := "coffee_phosphorus_p",
    "potasium-K" := "coffee_potassium_k"
  ]

  const AshgourdNames: map<string, string> := map[
    "ash_gourd__healthy" := "ashgourd_healthy",
    "ash_gourd__K" := "ashgourd_k",
    "ash_gourd__K_Mg" := "ashgourd_k_mg",
    "ash_gourd__N" := "ashgourd_n",
    "ash_gourd__N_K" := "ashgourd_n_k",
    "ash_gourd__N_Mg" := "ashgourd_n_mg",
    "ash_gourd__PM" := "ashgourd_pm"
  ]

  const EggplantNames: map<string, string> := map[
    "eggplant__healthy" := "eggplant_healthy",
    "eggplant__K" := "eggplant_k",
    "eggplant__N" := "eggplant_n",
    "eggplant__N_K" := "eggplant_n_k"
  ]

  const SnakegourdNames: map<string, string> := map[
    "snake_gourd__healthy" := "snakegourd_healthy",
    "snake_gourd__K" := "snakegourd_k",
    "snake_gourd__LS" := "snakegourd_ls",
    "snake_gourd__N" := "snakegourd_n",
    "snake_gourd__N_K" := "snakegourd_n_k"
  ]

  const BittergourdNames: map<string, string> := map[
    "bitter_gourd__DM" := "bittergourd_dm",
    "bitter_gourd__healthy" := "bittergourd_healthy",
    "bitter_gourd__JAS" := "bittergourd_jas",
    "bitter_gourd__K" := "bittergourd_k",
    "bitter_gourd__K_Mg" := "bittergourd_k_mg",
    "bitter_gourd__LS" := "bittergourd_ls",
    "bitter_gourd__N" := "bittergourd_n",
    "bitter_gourd__N_K" := "bittergourd_n_k",
    "bitter_gourd__N_Mg" := "bittergourd_n_mg"
  ]

  /** The per-crop table of `standardize_class_name`. */
  const ClassMap: map<string, map<string, string>> := map[
    "rice" := RiceNames,
    "wheat" := WheatNames,
    "maize" := MaizeNames,
    "banana" := BananaNames,
    "coffee" := CoffeeNames,
    "ashgourd" := AshgourdNames,
    "eggplant" := EggplantNames,
    "snakegourd" := SnakegourdNames,
    "bittergourd" := BittergourdNames
  ]

  /** Every identifier of `names` starts with `prefix`. */
  predicate AllPrefixed(names: map<string, string>, prefix: string) {
    forall cls :: cls in names ==> StartsWith(names[cls], prefix)
  }

  lemma RicePrefixed(crop: string)
    requires crop == "rice"
    ensures AllPrefixed(ClassMap[crop], crop + "_")
  {
  }

  lemma WheatPrefixed(crop: string)
    requires crop == "wheat"
    ensures AllPrefixed(ClassMap[crop], crop + "_")
  {
  }

  lemma MaizePrefixed(crop: string)
    requires crop == "maize"
    ensures AllPrefixed(ClassMap[crop], crop + "_")
  {
  }

  lemma BananaPrefixed(crop: string)
    requires crop == "banana"
    ensures AllPrefixed(ClassMap[crop], crop + "_")
  {
  }

  lemma CoffeePrefixed(crop: string)
    requires crop == "coffee"
    ensures AllPrefixed(ClassMap[crop], crop + "_")
  {
  }

  lemma AshgourdPrefixed(crop: string)
    requires crop == "ashgourd"
    ensures AllPrefixed(ClassMap[crop], crop + "_")
  {
  }

  lemma EggplantPrefixed(crop: string)
    requires crop == "eggplant"
    ensures AllPrefixed(ClassMap[crop], crop + "_")
  {
  }

  lemma SnakegourdPrefixed(crop: string)
    requires crop == "snakegourd"
    ensures AllPrefixed(ClassMap[crop], crop + "_")
  {
  }

  lemma BittergourdPrefixed(crop: string)
    requires crop == "bittergourd"
    ensures AllPrefixed(ClassMap[crop], crop + "_")
  {
  }

  /** The crops the table knows. */
  lemma TableCrops(crop: string)
    requires crop in ClassMap
    ensures crop == "rice" || crop == "wheat" || crop == "maize" || crop == "banana" || crop == "coffee" || crop == "ashgourd" || crop == "eggplant" || crop == "snakegourd" || crop == "bittergourd"
  {
  }

  /** The identifiers of one crop of the table start with that crop and `_`. */
  lemma CropPrefixed(crop: string)
    requires crop in ClassMap
    ensures AllPrefixed(ClassMap[crop], crop + "_")
  {
    TableCrops(crop);
    if crop == "rice" {
      RicePrefixed(crop);
    } else if crop == "wheat" {
      WheatPrefixed(crop);
    } else if crop == "maize" {
      MaizePrefixed(crop);
    } else if crop == "banana" {
      BananaPrefixed(crop);
    } else if crop == "coffee" {
      CoffeePrefixed(crop);
    } else if crop == "ashgourd" {
      AshgourdPrefixed(crop);
    } else if crop == "eggplant" {
      EggplantPrefixed(crop);
    } else if crop == "snakegourd" {
      SnakegourdPrefixed(crop);
    } else if crop == "bittergourd" {
      BittergourdPrefixed(crop);
    }
  }

  /** Every identifier in the table starts with its crop and `_`. */
  lemma TableValuesPrefixed()
    ensures forall crop :: crop in ClassMap ==> AllPrefixed(ClassMap[crop], crop + "_")
  {
    forall crop | crop in ClassMap
      ensures AllPrefixed(ClassMap[crop], crop + "_")
    {
      CropPrefixed(crop);
    }
  }

  /** The fallback's suffix: every occurrence of `crop_`, then of `crop__`,
      removed; the rest lower-cased, with spaces and hyphens turned into
      underscores. It holds no upper-case letter, space or hyphen. */
  function CleanSuffix(crop: string, className: string): (r: string)
    ensures forall i :: 0 <= i < |r| ==> !IsUpperAscii(r[i]) && r[i] != ' ' && r[i] != '-'
  {
    var stripped := ReplaceAll(ReplaceAll(className, crop + "_", ""), crop + "__", "");
    var lowered := Lower(stripped);
    ReplaceCharPointwise(lowered, ' ', '_');
    var spaced := ReplaceAll(lowered, " ", "_");
    ReplaceCharPointwise(spaced, '-', '_');
    ReplaceAll(spaced, "-", "_")
  }

  predicate InTable(crop: string, className: string) {
    crop in ClassMap && className in ClassMap[crop]
  }

  /** `standardize_class_name`: the table's identifier when the crop and
      the name are in it, otherwise the crop, `_` and the cleaned suffix;
      either way the result starts with the crop and `_`. */
  function StandardizeClassName(crop: string, className: string): (r: string)
    ensures InTable(crop, className) ==> r == ClassMap[crop][className]
    ensures !InTable(crop, className) ==> r == crop + "_" + CleanSuffix(crop, className)
    ensures StartsWith(r, crop + "_")
  {
    TableValuesPrefixed();
    if InTable(crop, className) then ClassMap[crop][className]
    else crop + "_" + CleanSuffix(crop, className)
  }

  /** A string holding `p + q` holds `p`. */
  lemma {:induction false} ContainsLongerPattern(s: string, p: string, q: string)
    requires Contains(s, p + q)
    ensures Contains(s, p)
    decreases |s|
  {
    if StartsWith(s, p + q) {
      assert s[..|p|] == (p + q)[..|p|] == p;
    } else {
      ContainsLongerPattern(s[1..], p, q);
    }
  }

  /** Outside the table, a name carrying the crop prefix and the bare name
      standardise alike: the fallback removes the prefix. */
  lemma {:induction false} PrefixedNameSameAsBare(crop: string, rest: string)
    requires !InTable(crop, crop + "_" + rest) && !InTable(crop, rest)
    ensures StandardizeClassName(crop, crop + "_" + rest) == StandardizeClassName(crop, rest)
  {
    var pat := crop + "_";
    var s := pat + rest;
    assert s[..|pat|] == pat && s[|pat|..] == rest;
    assert ReplaceAll(s, pat, "") == ReplaceAll(rest, pat, "");
  }

  /** A name already in standard form, `crop_` and a suffix with no
      upper-case letter, space, hyphen or further `crop_`, is kept. */
  lemma {:induction false} StandardNameKept(crop: string, suffix: string)
    requires !InTable(crop, crop + "_" + suffix)
    requires forall i :: 0 <= i < |suffix| ==> !IsUpperAscii(suffix[i]) && suffix[i] != ' ' && suffix[i] != '-'
    requires !Contains(suffix, crop + "_")
    ensures StandardizeClassName(crop, crop + "_" + suffix) == crop + "_" + suffix
  {
    var pat := crop + "_";
    var s := pat + suffix;
    assert s[..|pat|] == pat && s[|pat|..] == suffix;
    assert ReplaceAll(s, pat, "") == suffix;
    if Contains(suffix, crop + "__") {
      assert crop + "__" == pat + "_";
      ContainsLongerPattern(suffix, pat, "_");
    }
    LowerOfLower(suffix);
    MissingCharNotContained(suffix, " ", ' ');
    MissingCharNotContained(suffix, "-", '-');
  }
}
