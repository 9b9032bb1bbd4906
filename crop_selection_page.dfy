/**
 * The crop-selection page: four selections gate the Analyze button, and the
 * simulated analysis, whose delayed result is a separate completion step,
 * recommends the first three of the popular crops.
 */
module CropSelectionPage {

  /** A crop card (its star rating and picture are left out; `cropYield` is the `yield` field). */
  datatype Crop = Crop(id: string, name: string, category: string, season: string, duration: string,
                       cropYield: string, difficulty: string, description: string)

  const PopularCrops: seq<Crop> := [
    Crop("1", "Tomatoes", "Vegetables", "Spring/Summer", "60-80 days", "High", "Easy",
         "Versatile vegetable perfect for beginners"),
    Crop("2", "Basil", "Herbs", "Spring/Summer", "30-60 days", "Medium", "Easy",
         "Aromatic herb great for cooking"),
    Crop("3", "Bell Peppers", "Vegetables", "Spring/Summer", "70-90 days", "High", "Medium",
         "Colorful and nutritious vegetables"),
    Crop("4", "Lettuce", "Leafy Greens", "Spring/Fall", "45-60 days", "Medium", "Easy",
         "Fast-growing leafy green")
  ]

  /** `s.slice(0, n)`: the first `n` elements, or all of them when there are fewer. */
  function Take<T>(s: seq<T>, n: nat): (r: seq<T>)
    ensures |r| == if |s| <= n then |s| else n
    ensures forall k :: 0 <= k < |r| ==> r[k] == s[k]
  {
    if |s| <= n then s else s[..n]
  }

  /** The list keys: distinct ids. */
  ghost predicate DistinctIds(crops: seq<Crop>) {
    forall j, k :: 0 <= j < k < |crops| ==> crops[j].id != crops[k].id
  }

  class Page {
    var selectedLocation: string
    var selectedSeason: string
    var selectedSoilType: string
    var selectedExperience: string
    var isAnalyzing: bool
    var recommendations: seq<Crop>
    /** Analysis timers started and not yet fired. */
    var pending: nat

    constructor ()
      ensures selectedLocation == "" && selectedSeason == "" && selectedSoilType == "" && selectedExperience == ""
      ensures !isAnalyzing && recommendations == [] && pending == 0
    {
      selectedLocation, selectedSeason, selectedSoilType, selectedExperience := "", "", "", "";
      isAnalyzing, recommendations, pending := false, [], 0;
    }

    method SetLocation(value: string)
      modifies this
      ensures selectedLocation == value && selectedSeason == old(selectedSeason) && selectedSoilType == old(selectedSoilType) && selectedExperience == old(selectedExperience)
      ensures isAnalyzing == old(isAnalyzing) && recommendations == old(recommendations) && pending == old(pending)
    {
      selectedLocation := value;
    }

    method SetSeason(value: string)
      modifies this
      ensures selectedSeason == value && selectedLocation == old(selectedLocation) && selectedSoilType == old(selectedSoilType) && selectedExperience == old(selectedExperience)
      ensures isAnalyzing == old(isAnalyzing) && recommendations == old(recommendations) && pending == old(pending)
    {
      selectedSeason := value;
    }

    method SetSoilType(value: string)
      modifies this
      ensures selectedSoilType == value && selectedLocation == old(selectedLocation) && selectedSeason == old(selectedSeason) && selectedExperience == old(selectedExperience)
      ensures isAnalyzing == old(isAnalyzing) && recommendations == old(recommendations) && pending == old(pending)
    {
      selectedSoilType := value;
    }

    method SetExperience(value: string)
      modifies this
      ensures selectedExperience == value && selectedLocation == old(selectedLocation) && selectedSeason == old(selectedSeason) && selectedSoilType == old(selectedSoilType)
      ensures isAnalyzing == old(isAnalyzing) && recommendations == old(recommendations) && pending == old(pending)
    {
      selectedExperience := value;
    }

    /** The Analyze button's `disabled`. */
    predicate AnalyzeDisabled()
      reads this
    {
      selectedLocation == "" || selectedSeason == "" || selectedSoilType == "" || selectedExperience == ""
      || isAnalyzing
    }

    /** The recommendations card is rendered. */
    predicate ShowsRecommendations()
      reads this
    {
      |recommendations| > 0
    }

    /** `handleAnalyze`: start analysing and the timer. */
    method HandleAnalyze()
      modifies this
      ensures isAnalyzing && pending == old(pending) + 1 && recommendations == old(recommendations)
      ensures selectedLocation == old(selectedLocation) && selectedSeason == old(selectedSeason)
      ensures selectedSoilType == old(selectedSoilType) && selectedExperience == old(selectedExperience)
    {
      isAnalyzing := true;
      pending := pending + 1;
    }

    /** The Analyze button: does nothing while disabled. */
    method ClickAnalyze()
      modifies this
      ensures old(AnalyzeDisabled()) ==> isAnalyzing == old(isAnalyzing) && pending == old(pending)
      ensures !old(AnalyzeDisabled()) ==> isAnalyzing && pending == old(pending) + 1
      ensures recommendations == old(recommendations)
      ensures selectedLocation == old(selectedLocation) && selectedSeason == old(selectedSeason)
      ensures selectedSoilType == old(selectedSoilType) && selectedExperience == old(selectedExperience)
    {
      if !AnalyzeDisabled() {
        HandleAnalyze();
      }
    }

    /** A timer fires: the first three popular crops are recommended and analysing ends. */
    method CompleteAnalyze()
      requires pending > 0
      modifies this
      ensures recommendations == Take(PopularCrops, 3) && !isAnalyzing && pending == old(pending) - 1
      ensures ShowsRecommendations()
      ensures selectedLocation == old(selectedLocation) && selectedSeason == old(selectedSeason)
      ensures selectedSoilType == old(selectedSoilType) && selectedExperience == old(selectedExperience)
    {
      recommendations := Take(PopularCrops, 3);
      isAnalyzing := false;
      pending := pending - 1;
    }
  }

  /**
   * The popular crops are four, keyed "1" to "4"; the recommendations are the
   * first three of them, in order, so their keys are distinct too.
   */
  lemma CropTables()
    ensures |PopularCrops| == 4
    ensures forall k :: 0 <= k < 4 ==> PopularCrops[k].id == ["1", "2", "3", "4"][k]
    ensures DistinctIds(PopularCrops)
    ensures |Take(PopularCrops, 3)| == 3 && DistinctIds(Take(PopularCrops, 3))
    ensures forall k :: 0 <= k < 3 ==> Take(PopularCrops, 3)[k].name == ["Tomatoes", "Basil", "Bell Peppers"][k]
  {
  }
}
