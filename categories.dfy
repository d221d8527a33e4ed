/** The closed list of book categories offered by the category dropdown. */
module Categories {

  const SelfDevelopment: string := "Self Development"
  const NovelRomance: string := "Novel - Romance (Cinta)"
  const NovelMystery: string := "Novel - Mystery/Thriller"
  const NovelFantasy: string := "Novel - Fantasy/Sci-Fi"
  const NovelHistorical: string := "Novel - Sejarah"
  const Business: string := "Bisnis & Ekonomi"
  const Technology: string := "Teknologi & Komputer"
  const Health: string := "Kesehatan & Medis"
  const Education: string := "Pendidikan"
  const Religion: string := "Agama & Spiritualitas"
  const Biography: string := "Biografi & Autobiografi"
  const History: string := "Sejarah"
  const Science: string := "Sains & Penelitian"
  const Psychology: string := "Psikologi"
  const Art: string := "Seni & Kreativitas"
  const Cooking: string := "Masak & Kuliner"
  const Travel: string := "Travel & Adventure"
  const Children: string := "Buku Anak-anak"
  const Comic: string := "Komik & Manga"
  const Academic: string := "Buku Akademis/Kuliah"
  const Other: string := "Lainnya"

  /** `ALL_CATEGORIES`, in dropdown order. */
  const AllCategories: seq<string> := [
    SelfDevelopment, NovelRomance, NovelMystery, NovelFantasy, NovelHistorical,
    Business, Technology, Health, Education, Religion, Biography, History,
    Science, Psychology, Art, Cooking, Travel, Children, Comic, Academic, Other
  ]

  /** `isValidCategory`: exact, case-sensitive membership in the list. */
  function IsValidCategory(category: string): (valid: bool)
    ensures valid <==> exists i :: 0 <= i < |AllCategories| && AllCategories[i] == category
  {
    category in AllCategories
  }

  /** The list has 21 entries, no two alike. */
  lemma AllCategoriesDistinct()
    ensures |AllCategories| == 21
    ensures forall i, j :: 0 <= i < j < |AllCategories| ==> AllCategories[i] != AllCategories[j]
  {
  }

  /** Every named constant is accepted. */
  lemma NamedConstantsValid()
    ensures IsValidCategory(SelfDevelopment) && IsValidCategory(NovelRomance)
    ensures IsValidCategory(NovelMystery) && IsValidCategory(NovelFantasy)
    ensures IsValidCategory(NovelHistorical) && IsValidCategory(Business)
    ensures IsValidCategory(Technology) && IsValidCategory(Health)
    ensures IsValidCategory(Education) && IsValidCategory(Religion)
    ensures IsValidCategory(Biography) && IsValidCategory(History)
    ensures IsValidCategory(Science) && IsValidCategory(Psychology)
    ensures IsValidCategory(Art) && IsValidCategory(Cooking)
    ensures IsValidCategory(Travel) && IsValidCategory(Children)
    ensures IsValidCategory(Comic) && IsValidCategory(Academic)
    ensures IsValidCategory(Other)
  {
    assert AllCategories[0] == SelfDevelopment;
    assert AllCategories[1] == NovelRomance;
    assert AllCategories[2] == NovelMystery;
    assert AllCategories[3] == NovelFantasy;
    assert AllCategories[4] == NovelHistorical;
    assert AllCategories[5] == Business;
    assert AllCategories[6] == Technology;
    assert AllCategories[7] == Health;
    assert AllCategories[8] == Education;
    assert AllCategories[9] == Religion;
    assert AllCategories[10] == Biography;
    assert AllCategories[11] == History;
    assert AllCategories[12] == Science;
    assert AllCategories[13] == Psychology;
    assert AllCategories[14] == Art;
    assert AllCategories[15] == Cooking;
    assert AllCategories[16] == Travel;
    assert AllCategories[17] == Children;
    assert AllCategories[18] == Comic;
    assert AllCategories[19] == Academic;
    assert AllCategories[20] == Other;
  }

  /** A capital letter followed by a lower-case one. */
  predicate Capitalized(s: string) {
    |s| >= 2 && 'A' <= s[0] <= 'Z' && 'a' <= s[1] <= 'z'
  }

  /** Every accepted category starts with a capital letter followed by a lower-case one. */
  lemma ValidCategoryShape(category: string)
    requires IsValidCategory(category)
    ensures Capitalized(category)
  {
    assert Capitalized(SelfDevelopment);
    assert Capitalized(NovelRomance);
    assert Capitalized(NovelMystery);
    assert Capitalized(NovelFantasy);
    assert Capitalized(NovelHistorical);
    assert Capitalized(Business);
    assert Capitalized(Technology);
    assert Capitalized(Health);
    assert Capitalized(Education);
    assert Capitalized(Religion);
    assert Capitalized(Biography);
    assert Capitalized(History);
    assert Capitalized(Science);
    assert Capitalized(Psychology);
    assert Capitalized(Art);
    assert Capitalized(Cooking);
    assert Capitalized(Travel);
    assert Capitalized(Children);
    assert Capitalized(Comic);
    assert Capitalized(Academic);
    assert Capitalized(Other);
    assert forall i :: 0 <= i < |AllCategories| ==> Capitalized(AllCategories[i]);
  }

  /** The test is case-sensitive and rejects the empty string. */
  lemma RejectedExamples()
    ensures !IsValidCategory("")
    ensures !IsValidCategory("sejarah")
    ensures !IsValidCategory("SEJARAH")
    ensures IsValidCategory("Sejarah")
  {
    if IsValidCategory("") { ValidCategoryShape(""); }
    if IsValidCategory("sejarah") { ValidCategoryShape("sejarah"); }
    if IsValidCategory("SEJARAH") { ValidCategoryShape("SEJARAH"); }
    assert AllCategories[11] == "Sejarah";
  }
}
