/**
 * The weather overlay the plant mascot draws over itself, chosen from the
 * condition text by keyword, and the side of the screen it sits on.
 */
module PlantMascot {
  import opened Outcomes
  import opened Strings

  /** The four overlays of the mascot. */
  datatype Overlay = Sunny | Rainy | Cloudy | Windy

  /** The props' defaults: `condition = "sunny"`, `side = "left"`. */
  const DefaultCondition := "sunny"
  const DefaultSide := "left"

  /** A prop as received: `None` when the caller leaves it out. */
  function Prop(given: Option<string>, default: string): string {
    given.GetOr(default)
  }

  /** Keywords in the order they are tried, with the overlay each selects. */
  const Keywords: seq<(string, Overlay)> := [("rain", Rainy), ("cloud", Cloudy), ("wind", Windy), ("sun", Sunny)]

  /** The overlay of the first keyword in `table` that occurs in `condition`; sunny when none does. */
  function Classify(condition: string, table: seq<(string, Overlay)>): Overlay {
    if table == [] then Sunny
    else if Includes(condition, table[0].0) then table[0].1
    else Classify(condition, table[1..])
  }

  /** The if/else chain over `condition.includes(...)`, starting from the sunny overlay. */
  method PickOverlay(condition: string) returns (overlay: Overlay)
    ensures overlay == Classify(condition, Keywords)
  {
    OverlayPriority(condition);
    overlay := Sunny;
    if Includes(condition, "rain") {
      overlay := Rainy;
    } else if Includes(condition, "cloud") {
      overlay := Cloudy;
    } else if Includes(condition, "wind") {
      overlay := Windy;
    } else if Includes(condition, "sun") {
      overlay := Sunny;
    }
  }

  /** Each overlay is chosen exactly when its keyword occurs and no earlier one does. */
  lemma OverlayPriority(condition: string)
    ensures Classify(condition, Keywords) == Rainy <==> Includes(condition, "rain")
    ensures Classify(condition, Keywords) == Cloudy <==> !Includes(condition, "rain") && Includes(condition, "cloud")
    ensures Classify(condition, Keywords) == Windy <==>
              !Includes(condition, "rain") && !Includes(condition, "cloud") && Includes(condition, "wind")
    ensures Classify(condition, Keywords) == Sunny <==>
              !Includes(condition, "rain") && !Includes(condition, "cloud") && !Includes(condition, "wind")
  {
    var sun := [("sun", Sunny)];
    var wind := [("wind", Windy)] + sun;
    var cloud := [("cloud", Cloudy)] + wind;
    assert Keywords == [("rain", Rainy)] + cloud;
    assert Classify(condition, sun) == Sunny;
    assert Classify(condition, wind) == if Includes(condition, "wind") then Windy else Sunny;
    assert Classify(condition, cloud) == if Includes(condition, "cloud") then Cloudy else Classify(condition, wind);
  }

  /**
   * A mascot given no condition shows the sunny overlay on the left, and a
   * capitalised "Rainy" also gives the sunny overlay.
   */
  lemma SunnyExamples()
    ensures Classify(Prop(None, DefaultCondition), Keywords) == Sunny
    ensures SideClass(Prop(None, DefaultSide)) == "left-2"
    ensures Classify("Rainy", Keywords) == Sunny
  {
    NoKeywordIsSunny(DefaultCondition);
    NoKeywordIsSunny("Rainy");
  }

  /** A condition without the letters that begin "rain", "cloud" and "wind" gives the sunny overlay. */
  lemma NoKeywordIsSunny(condition: string)
    requires forall k :: 0 <= k < |condition| ==> condition[k] != 'r' && condition[k] != 'c' && condition[k] != 'w'
    ensures Classify(condition, Keywords) == Sunny
  {
    OverlayPriority(condition);
    FirstLetterAbsent(condition, "rain");
    FirstLetterAbsent(condition, "cloud");
    FirstLetterAbsent(condition, "wind");
  }

  /** A word whose first letter occurs nowhere in `s` is not included in it. */
  lemma FirstLetterAbsent(s: string, t: string)
    requires t != []
    requires forall k :: 0 <= k < |s| ==> s[k] != t[0]
    ensures !Includes(s, t)
  {
    IncludesIff(s, t);
    forall i ensures !OccursAt(s, t, i) {
      if 0 <= i && i + |t| <= |s| {
        assert s[i..i + |t|][0] == s[i];
      }
    }
  }

  /** `side === "left" ? "left-2" : "right-2"`. */
  function SideClass(side: string): (r: string)
    ensures r == "left-2" <==> side == "left"
    ensures r == "right-2" <==> side != "left"
  {
    if side == "left" then "left-2" else "right-2"
  }

  /** The rotations of the sun's eight rays, in degrees. */
  function SunRays(): (r: seq<int>)
    ensures |r| == 8
    ensures forall i :: 0 <= i < |r| ==> r[i] == i * 45
  {
    seq(8, i => i * 45)
  }

  /** The rays point in eight different directions, evenly spread over the full turn. */
  lemma SunRaysSpread()
    ensures forall i, j :: 0 <= i < j < |SunRays()| ==> SunRays()[i] < SunRays()[j]
    ensures forall i :: 0 <= i < |SunRays()| ==> 0 <= SunRays()[i] < 360
    ensures forall i :: 0 < i < |SunRays()| ==> SunRays()[i] - SunRays()[i - 1] == 360 / |SunRays()|
  {
  }
}
