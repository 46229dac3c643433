/**
 * How the training scripts label an image from its folder and file name:
 * a folder naming one nutrient marks that nutrient deficient, and the
 * `more-deficiencies` folder reads the deficient nutrients from tokens in
 * the file name. Two scripts do this independently; they agree.
 */
module TrainLabels {
  import opened Text

  /** The N, P and K flags of one image, each 0 or 1. */
  datatype Labels = Labels(n: int, p: int, k: int) {
    predicate Bits() {
      n in {0, 1} && p in {0, 1} && k in {0, 1}
    }

    function AsList(): seq<int> {
      [n, p, k]
    }
  }

  const NoLabels: Labels := Labels(0, 0, 0)

  /** The folder of images with several deficiencies. */
  const MultiFolder: string := "more-deficiencies"

  /** The folder rule of `parse_deficiency_label`: the first of nitrogen,
      phosphorus and the misspelled `potasium` the lower-cased folder name
      mentions (or the exact names `nitrogen-N`, `phosphorus-P`,
      `potasium-K`). */
  function FolderLabels(folder: string): (r: Labels)
    ensures r.Bits() && r.n + r.p + r.k <= 1
  {
    var f := Lower(folder);
    if Contains(f, "nitrogen") || folder == "nitrogen-N" then Labels(1, 0, 0)
    else if Contains(f, "phosphorus") || folder == "phosphorus-P" then Labels(0, 1, 0)
    else if Contains(f, "potasium") || folder == "potasium-K" then Labels(0, 0, 1)
    else NoLabels
  }

  /** The class name the folder rule gives. */
  function FolderClass(folder: string): string {
    var l := FolderLabels(folder);
    if l.n == 1 then "nitrogen_deficiency"
    else if l.p == 1 then "phosphorus_deficiency"
    else if l.k == 1 then "potassium_deficiency"
    else "healthy"
  }

  /** The deficiency tokens of an upper-cased file name. */
  predicate NitrogenToken(u: string) {
    Contains(u, "N_") || Contains(u, "_N")
  }

  predicate PhosphorusToken(u: string) {
    Contains(u, "P_") || Contains(u, "_P") || StartsWith(u, "P ")
  }

  predicate PotassiumToken(u: string) {
    Contains(u, "K_") || Contains(u, "_K") || StartsWith(u, "K ")
  }

  function Flag(b: bool): int {
    if b then 1 else 0
  }

  /** The flags of a file in the multi-deficiency folder: the folder flags,
      raised wherever the file name carries a token. */
  function MultiLabels(filename: string, folder: string): (r: Labels)
    ensures r.Bits()
  {
    var u := Upper(filename);
    var f := FolderLabels(folder);
    Labels(
      if NitrogenToken(u) then 1 else f.n,
      if PhosphorusToken(u) then 1 else f.p,
      if PotassiumToken(u) then 1 else f.k)
  }

  /** `'_'.join(parts)` */
  function Join(parts: seq<string>, sep: string): string {
    if |parts| == 0 then ""
    else if |parts| == 1 then parts[0]
    else parts[0] + sep + Join(parts[1..], sep)
  }

  /** The letters of the set flags, in N, P, K order. */
  function Letters(l: Labels): (r: seq<string>)
    ensures |r| == Flag(l.n != 0) + Flag(l.p != 0) + Flag(l.k != 0)
    ensures |r| <= 3
  {
    (if l.n != 0 then ["N"] else []) + (if l.p != 0 then ["P"] else []) + (if l.k != 0 then ["K"] else [])
  }

  /** The class of a multi-deficiency image. */
  function MultiClass(l: Labels): string {
    if |Letters(l)| > 0 then Join(Letters(l), "_") + "_deficiency" else "other_deficiency"
  }

  datatype Parsed = Parsed(labels: Labels, detectedClass: string)

  /** What `parse_deficiency_label` returns. */
  function DeficiencyLabel(filename: string, folder: string): (r: Parsed)
    ensures r.labels.Bits()
  {
    if folder == MultiFolder then
      var l := MultiLabels(filename, folder);
      Parsed(l, MultiClass(l))
    else Parsed(FolderLabels(folder), FolderClass(folder))
  }

  /** `parse_deficiency_label`: a local dict of flags and a class name,
      overwritten first by the folder rule and then, for the
      multi-deficiency folder, by the file-name tokens, with the class
      built by appending the set letters to a list. */
  method ParseDeficiencyLabel(filename: string, folder: string) returns (labels: Labels, detectedClass: string)
    ensures Parsed(labels, detectedClass) == DeficiencyLabel(filename, folder)
  {
    var n, p, k := 0, 0, 0;
    detectedClass := "healthy";
    var folderLower := Lower(folder);
    if Contains(folderLower, "nitrogen") || folder == "nitrogen-N" {
      n := 1;
      detectedClass := "nitrogen_deficiency";
    } else if Contains(folderLower, "phosphorus") || folder == "phosphorus-P" {
      p := 1;
      detectedClass := "phosphorus_deficiency";
    } else if Contains(folderLower, "potasium") || folder == "potasium-K" {
      k := 1;
      detectedClass := "potassium_deficiency";
    } else if Contains(folderLower, "healthy") {
      detectedClass := "healthy";
    }
    if folder == MultiFolder {
      var upper := Upper(filename);
      if Contains(upper, "N_") || Contains(upper, "_N") {
        n := 1;
      }
      if Contains(upper, "P_") || Contains(upper, "_P") || StartsWith(upper, "P ") {
        p := 1;
      }
      if Contains(upper, "K_") || Contains(upper, "_K") || StartsWith(upper, "K ") {
        k := 1;
      }
      var deficiencies: seq<string> := [];
      if n != 0 {
        deficiencies := deficiencies + ["N"];
      }
      if p != 0 {
        deficiencies := deficiencies + ["P"];
      }
      if k != 0 {
        deficiencies := deficiencies + ["K"];
      }
      assert deficiencies == Letters(Labels(n, p, k));
      if |deficiencies| > 0 {
        detectedClass := Join(deficiencies, "_") + "_deficiency";
      } else {
        detectedClass := "other_deficiency";
      }
    }
    labels := Labels(n, p, k);
  }

  /** A folder whose lower-cased name mentions none of the keywords, and
      which is none of the exact names, sets no flag and is `healthy`. */
  lemma UnlabelledFolder(folder: string)
    requires !Contains(Lower(folder), "nitrogen") && !Contains(Lower(folder), "phosphorus")
    requires !Contains(Lower(folder), "potasium")
    requires folder != "nitrogen-N" && folder != "phosphorus-P" && folder != "potasium-K"
    ensures FolderLabels(folder) == NoLabels && FolderClass(folder) == "healthy"
  {
  }

  /** A lower-case folder name without the letters g, h and p mentions no
      nutrient keyword. */
  lemma {:induction false} NoKeywordLetters(folder: string)
    requires 'g' !in folder && 'h' !in folder && 'p' !in folder
    requires forall i :: 0 <= i < |folder| ==> !IsUpperAscii(folder[i])
    ensures FolderLabels(folder) == NoLabels
  {
    LowerOfLower(folder);
    MissingCharNotContained(folder, "nitrogen", 'g');
    MissingCharNotContained(folder, "phosphorus", 'h');
    MissingCharNotContained(folder, "potasium", 'p');
  }

  /** The multi-deficiency folder's name mentions no nutrient, so only the
      file name decides its flags. */
  lemma MultiFolderHasNoFolderLabel()
    ensures FolderLabels(MultiFolder) == NoLabels
  {
    NoKeywordLetters(MultiFolder);
  }

  /** Outside the multi-deficiency folder at most one flag is set, with
      nitrogen before phosphorus before potassium. */
  lemma {:induction false} FolderPrecedence(filename: string, folder: string)
    requires folder != MultiFolder
    ensures var l := DeficiencyLabel(filename, folder).labels;
      && l.n + l.p + l.k <= 1
      && (l.n == 1 <==> Contains(Lower(folder), "nitrogen"))
      && (l.p == 1 <==> !Contains(Lower(folder), "nitrogen") && Contains(Lower(folder), "phosphorus"))
      && (l.k == 1 <==> !Contains(Lower(folder), "nitrogen") && !Contains(Lower(folder), "phosphorus")
                        && Contains(Lower(folder), "potasium"))
  {
    ExactNamesRedundant(folder);
  }

  /** The exact folder names the rule also accepts are already covered by
      the keyword test. */
  lemma ExactNamesRedundant(folder: string)
    ensures folder == "nitrogen-N" ==> Contains(Lower(folder), "nitrogen")
    ensures folder == "phosphorus-P" ==> Contains(Lower(folder), "phosphorus")
    ensures folder == "potasium-K" ==> Contains(Lower(folder), "potasium")
  {
    if folder == "nitrogen-N" {
      assert Lower(folder)[..8] == "nitrogen";
      StartsWithContains(Lower(folder), "nitrogen");
    }
    if folder == "phosphorus-P" {
      assert Lower(folder)[..10] == "phosphorus";
      StartsWithContains(Lower(folder), "phosphorus");
    }
    if folder == "potasium-K" {
      assert Lower(folder)[..8] == "potasium";
      StartsWithContains(Lower(folder), "potasium");
    }
  }

  /** The lower-cased `potassium-K` mentions none of the keywords: it lacks
      the letters n and h, and `potasium` occurs at no index of it. */
  lemma CorrectSpellingHasNoKeyword(f: string)
    requires f == "potassium-k"
    ensures !Contains(f, "nitrogen") && !Contains(f, "phosphorus") && !Contains(f, "potasium")
  {
    MissingCharNotContained(f, "nitrogen", 'n');
    MissingCharNotContained(f, "phosphorus", 'h');
    forall k: nat
      ensures !OccursAt(f, "potasium", k)
    {
      if k + 8 <= |f| {
        assert k == 0 || k == 1 || k == 2 || k == 3;
        assert f[k + 5] != 'i' || f[k] != 'p';
        var t := f[k..k + 8];
        assert t[5] == f[k + 5] && t[0] == f[k];
      }
    }
    NoOccurrence(f, "potasium");
  }

  /** Only the misspelling `potasium` sets K: a folder named `potassium-K`
      labels its images healthy. */
  lemma CorrectSpellingIsHealthy(filename: string)
    ensures DeficiencyLabel(filename, "potassium-K") == Parsed(NoLabels, "healthy")
  {
    var stem := "potassium-";
    LowerOfLower(stem);
    assert "potassium-K" == stem + "K";
    assert Lower(stem + "K") == Lower(stem) + "k";
    CorrectSpellingHasNoKeyword(Lower("potassium-K"));
    UnlabelledFolder("potassium-K");
  }

  /** In the multi-deficiency folder each flag is set exactly when the
      upper-cased file name carries its token, and the class lists the set
      letters or is `other_deficiency`. */
  lemma {:induction false} MultiFolderTokens(filename: string)
    ensures var r := DeficiencyLabel(filename, MultiFolder);
      && (r.labels.n == 1 <==> NitrogenToken(Upper(filename)))
      && (r.labels.p == 1 <==> PhosphorusToken(Upper(filename)))
      && (r.labels.k == 1 <==> PotassiumToken(Upper(filename)))
      && (r.detectedClass == "other_deficiency" <==> r.labels == NoLabels)
  {
    MultiFolderHasNoFolderLabel();
    var l := DeficiencyLabel(filename, MultiFolder).labels;
    if l != NoLabels {
      JoinedClassIsNotOther(l);
    }
  }

  /** A class built from at least one letter is never `other_deficiency`. */
  lemma JoinedClassIsNotOther(l: Labels)
    requires |Letters(l)| > 0
    ensures MultiClass(l) != "other_deficiency"
  {
    var j := Join(Letters(l), "_");
    assert j[0] in {'N', 'P', 'K'};
    assert MultiClass(l)[0] == j[0];
  }

  /** A character other than the separator occurs in a join of
      one-character parts iff it is one of the parts. */
  lemma {:induction false} JoinedLetters(parts: seq<string>, c: char)
    requires forall i :: 0 <= i < |parts| ==> |parts[i]| == 1
    requires c != '_'
    ensures c in Join(parts, "_") <==> exists i :: 0 <= i < |parts| && parts[i][0] == c
  {
    if |parts| > 1 {
      JoinedLetters(parts[1..], c);
      assert forall i :: 1 <= i < |parts| ==> parts[1..][i - 1] == parts[i];
      assert parts[0] == [parts[0][0]];
    } else if |parts| == 1 {
      assert parts[0] == [parts[0][0]];
    }
  }

  /** The class of a multi-deficiency image names exactly its set flags:
      each of the letters N, P and K occurs in it iff that flag is set, and
      a class naming any letter ends with `_deficiency`. */
  lemma MultiClassNames(l: Labels)
    requires l.Bits()
    ensures l.n == 1 <==> 'N' in MultiClass(l)
    ensures l.p == 1 <==> 'P' in MultiClass(l)
    ensures l.k == 1 <==> 'K' in MultiClass(l)
    ensures |Letters(l)| > 0 ==> EndsWith(MultiClass(l), "_deficiency")
  {
    var ls := Letters(l);
    var suffix := "_deficiency";
    assert 'N' !in suffix && 'P' !in suffix && 'K' !in suffix;
    assert forall i :: 0 <= i < |ls| ==> ls[i] in {"N", "P", "K"};
    if |ls| == 0 {
      assert MultiClass(l) == "other_deficiency";
      assert 'N' !in "other_deficiency" && 'P' !in "other_deficiency" && 'K' !in "other_deficiency";
    } else {
      var j := Join(ls, "_");
      assert MultiClass(l) == j + suffix;
      assert (j + suffix)[|j|..] == suffix;
      JoinedLetters(ls, 'N');
      JoinedLetters(ls, 'P');
      JoinedLetters(ls, 'K');
    }
  }

  /** Different flag sets give different class names, so the class of a
      multi-deficiency image determines its flags. */
  lemma MultiClassInjective(a: Labels, b: Labels)
    requires a.Bits() && b.Bits() && MultiClass(a) == MultiClass(b)
    ensures a == b
  {
    MultiClassNames(a);
    MultiClassNames(b);
  }

  /** What `parse_npk_label` returns: the folder keywords (without the
      exact-name alternatives) and the same file-name tokens. */
  function NpkLabel(filename: string, folder: string): (r: seq<int>)
    ensures |r| == 3 && forall i :: 0 <= i < 3 ==> r[i] in {0, 1}
  {
    var f := Lower(folder);
    var u := Upper(filename);
    var base :=
      if Contains(f, "nitrogen") then [1, 0, 0]
      else if Contains(f, "phosphorus") then [0, 1, 0]
      else if Contains(f, "potasium") then [0, 0, 1]
      else [0, 0, 0];
    if folder == MultiFolder then
      [if NitrogenToken(u) then 1 else base[0],
       if PhosphorusToken(u) then 1 else base[1],
       if PotassiumToken(u) then 1 else base[2]]
    else base
  }

  /** `parse_npk_label`: a three-element list whose entries are set to 1 in
      place, first by the folder keyword and then by the file-name tokens. */
  method ParseNpkLabel(filename: string, folder: string) returns (flags: seq<int>)
    ensures flags == NpkLabel(filename, folder)
  {
    flags := [0, 0, 0];
    var folderLower := Lower(folder);
    var filenameUpper := Upper(filename);
    if Contains(folderLower, "nitrogen") {
      flags := flags[0 := 1];
    } else if Contains(folderLower, "phosphorus") {
      flags := flags[1 := 1];
    } else if Contains(folderLower, "potasium") {
      flags := flags[2 := 1];
    }
    if folder == MultiFolder {
      if Contains(filenameUpper, "N_") || Contains(filenameUpper, "_N") {
        flags := flags[0 := 1];
      }
      if Contains(filenameUpper, "P_") || Contains(filenameUpper, "_P") || StartsWith(filenameUpper, "P ") {
        flags := flags[1 := 1];
      }
      if Contains(filenameUpper, "K_") || Contains(filenameUpper, "_K") || StartsWith(filenameUpper, "K ") {
        flags := flags[2 := 1];
      }
    }
  }

  /** The two scripts label every image alike: `parse_npk_label` is the
      flag part of `parse_deficiency_label`. */
  lemma {:induction false} ParsersAgree(filename: string, folder: string)
    ensures NpkLabel(filename, folder) == DeficiencyLabel(filename, folder).labels.AsList()
  {
    ExactNamesRedundant(folder);
  }

  /** A healthy or unrecognised folder other than the multi-deficiency one
      yields no flag. */
  lemma UnrecognisedFolderIsZero(filename: string, folder: string)
    requires folder != MultiFolder
    requires !Contains(Lower(folder), "nitrogen") && !Contains(Lower(folder), "phosphorus")
    requires !Contains(Lower(folder), "potasium")
    ensures NpkLabel(filename, folder) == [0, 0, 0]
  {
  }
}
