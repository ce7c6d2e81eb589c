/**
 * FinishLineManager: counts the cars whose body crosses the finish trigger, shows the count,
 * and when the player's body crosses, latches the end of the race and shows the player's
 * finishing position, which is the count including the player.
 */
module FinishLine {

  /** Decimal digits of a natural number, most significant first, without leading zeros. */
  function NatToString(n: nat): (s: string)
    ensures |s| >= 1 && forall k :: 0 <= k < |s| ==> '0' <= s[k] <= '9'
    ensures |s| > 1 ==> s[0] != '0'
  {
    if n < 10 then [Digit(n)] else NatToString(n / 10) + [Digit(n % 10)]
  }

  function Digit(d: nat): (c: char)
    requires d < 10
    ensures '0' <= c <= '9'
  {
    ('0' as int + d) as char
  }

  /** C#'s decimal rendering of an int, with a leading '-' for negative values. */
  function IntToString(n: int): (s: string)
  {
    if n < 0 then "-" + NatToString(-n) else NatToString(n)
  }

  /** The value of a string of decimal digits. */
  function DigitsValue(s: string): nat
    requires forall k :: 0 <= k < |s| ==> '0' <= s[k] <= '9'
  {
    if s == [] then 0 else DigitsValue(s[..|s| - 1]) * 10 + (s[|s| - 1] as int - '0' as int)
  }

  /** Reading an int back from its rendering. */
  function ParseInt(s: string): int
    requires |s| >= 1
    requires s[0] == '-' ==> forall k :: 1 <= k < |s| ==> '0' <= s[k] <= '9'
    requires s[0] != '-' ==> forall k :: 0 <= k < |s| ==> '0' <= s[k] <= '9'
  {
    if s[0] == '-' then -(DigitsValue(s[1..]) as int) else DigitsValue(s)
  }

  lemma {:induction false} NatToStringRoundTrip(n: nat)
    ensures DigitsValue(NatToString(n)) == n
  {
    var s := NatToString(n);
    if n >= 10 {
      NatToStringRoundTrip(n / 10);
      assert s[..|s| - 1] == NatToString(n / 10);
    }
  }

  /** The rendering of an int reads back as that int. */
  lemma IntToStringRoundTrip(n: int)
    ensures ParseInt(IntToString(n)) == n
  {
    if n < 0 {
      NatToStringRoundTrip(-n);
      assert IntToString(n)[1..] == NatToString(-n);
    } else {
      NatToStringRoundTrip(n);
    }
  }

  /** The counter text. */
  function CrossedText(count: int, totalCars: int): string
  {
    "Crossed: " + IntToString(count) + " / " + IntToString(totalCars)
  }

  /** The result text. */
  function ResultText(position: int, totalCars: int): string
  {
    "You Finished: " + IntToString(position) + " / " + IntToString(totalCars)
  }

  /** A text of the form prefix + x + suffix determines x. */
  lemma MiddleDetermined(prefix: string, a: string, b: string, suffix: string)
    requires prefix + a + suffix == prefix + b + suffix
    ensures a == b
  {
    var s := prefix + a + suffix;
    assert |a| == |b|;
    assert a == s[|prefix|..|prefix| + |a|];
  }

  /** The counter text shows the count: two different counts never give the same text. */
  lemma CrossedTextShowsCount(c1: int, c2: int, totalCars: int)
    requires CrossedText(c1, totalCars) == CrossedText(c2, totalCars)
    ensures c1 == c2
  {
    assert CrossedText(c1, totalCars) == "Crossed: " + IntToString(c1) + (" / " + IntToString(totalCars));
    assert CrossedText(c2, totalCars) == "Crossed: " + IntToString(c2) + (" / " + IntToString(totalCars));
    MiddleDetermined("Crossed: ", IntToString(c1), IntToString(c2), " / " + IntToString(totalCars));
    IntToStringRoundTrip(c1);
    IntToStringRoundTrip(c2);
  }

  /** The result text shows the position: two different positions never give the same text. */
  lemma ResultTextShowsPosition(p1: int, p2: int, totalCars: int)
    requires ResultText(p1, totalCars) == ResultText(p2, totalCars)
    ensures p1 == p2
  {
    assert ResultText(p1, totalCars) == "You Finished: " + IntToString(p1) + (" / " + IntToString(totalCars));
    assert ResultText(p2, totalCars) == "You Finished: " + IntToString(p2) + (" / " + IntToString(totalCars));
    MiddleDetermined("You Finished: ", IntToString(p1), IntToString(p2), " / " + IntToString(totalCars));
    IntToStringRoundTrip(p1);
    IntToStringRoundTrip(p2);
  }

  const CarBody := "CarBody"
  const CarBodyPlayer := "CarBodyPlayer"

  /** Whether a collider with this tag is counted: any car body, the player's included. */
  predicate IsCarBody(tag: string)
  {
    tag == CarBody || tag == CarBodyPlayer
  }

  class FinishLineManager {
    var totalCars: int
    var raceFinished: bool
    var count: int
    /** Whether the two UI Text references are assigned, and the texts they show. */
    var hasCrossedText: bool
    var crossedText: string
    var hasResultText: bool
    var resultText: string

    /** The inspector defaults and the field initialisers. */
    constructor (hasCrossedText: bool, hasResultText: bool)
      ensures totalCars == 100 && count == 0 && !raceFinished
      ensures this.hasCrossedText == hasCrossedText && this.hasResultText == hasResultText
      ensures crossedText == "" && resultText == ""
    {
      totalCars := 100;
      raceFinished := false;
      count := 0;
      this.hasCrossedText := hasCrossedText;
      crossedText := "";
      this.hasResultText := hasResultText;
      resultText := "";
    }

    /** The counter starts at zero, and only the player's crossing finishes the race. */
    predicate Valid()
      reads this
    {
      count >= 0 && (raceFinished ==> count >= 1)
    }

    /** Start: the counter shows zero crossings and the result text is blank. */
    method Start()
      modifies this`crossedText, this`resultText
      ensures crossedText == (if hasCrossedText then CrossedText(0, totalCars) else old(crossedText))
      ensures resultText == (if hasResultText then "" else old(resultText))
    {
      if hasCrossedText {
        crossedText := CrossedText(0, totalCars);
      }
      if hasResultText {
        resultText := "";
      }
    }

    /**
     * OnTriggerEnter: after the race is finished nothing changes. Otherwise a car body adds one
     * to the count and refreshes the counter text, and the player's body then finishes the race
     * and shows its position, the count after its own crossing.
     */
    method OnTriggerEnter(tag: string)
      requires Valid()
      modifies this`count, this`raceFinished, this`crossedText, this`resultText
      ensures Valid()
      ensures old(raceFinished) ==> count == old(count) && raceFinished &&
                                    crossedText == old(crossedText) && resultText == old(resultText)
      ensures !old(raceFinished) ==>
                count == old(count) + (if IsCarBody(tag) then 1 else 0) &&
                raceFinished == (tag == CarBodyPlayer) &&
                crossedText == (if IsCarBody(tag) && hasCrossedText then CrossedText(count, totalCars)
                                else old(crossedText)) &&
                resultText == (if tag == CarBodyPlayer && hasResultText then ResultText(count, totalCars)
                               else old(resultText))
    {
      if raceFinished {
        return;
      }
      if tag == CarBody || tag == CarBodyPlayer {
        count := count + 1;
        UpdateCrossedUI();
      }
      if tag == CarBodyPlayer {
        raceFinished := true;
        var playerPosition := count;
        ShowPlayerResult(playerPosition);
      }
    }

    /** UpdateCrossedUI: the counter text shows the current count, when the text is assigned. */
    method UpdateCrossedUI()
      modifies this`crossedText
      ensures crossedText == (if hasCrossedText then CrossedText(count, totalCars) else old(crossedText))
    {
      if hasCrossedText {
        crossedText := CrossedText(count, totalCars);
      }
    }

    /** ShowPlayerResult: the result text shows the position, when the text is assigned. */
    method ShowPlayerResult(playerPosition: int)
      modifies this`resultText
      ensures resultText == (if hasResultText then ResultText(playerPosition, totalCars) else old(resultText))
    {
      var text := ResultText(playerPosition, totalCars);
      if hasResultText {
        resultText := text;
      }
    }
  }

  /** The count after a run of crossings, as OnTriggerEnter keeps it, and whether the race ended. */
  function Run(tags: seq<string>, count: int, finished: bool): (r: (int, bool))
    decreases |tags|
  {
    if tags == [] || finished then (count, finished)
    else Run(tags[1..], count + (if IsCarBody(tags[0]) then 1 else 0), tags[0] == CarBodyPlayer)
  }

  /** How many of the tags are car bodies. */
  function CarBodies(tags: seq<string>): nat
  {
    if tags == [] then 0 else CarBodies(tags[..|tags| - 1]) + (if IsCarBody(tags[|tags| - 1]) then 1 else 0)
  }

  /**
   * From the start of the race, when the player's body is the first to cross at index p, the
   * race ends there and the count -- the player's reported position -- is the number of car
   * bodies up to and including the player, and nothing after p is counted.
   */
  lemma {:induction false} PlayerPositionIsCarsAhead(tags: seq<string>, p: nat)
    requires p < |tags| && tags[p] == CarBodyPlayer
    requires forall k :: 0 <= k < p ==> tags[k] != CarBodyPlayer
    ensures Run(tags, 0, false) == (CarBodies(tags[..p + 1]), true)
    ensures CarBodies(tags[..p + 1]) >= 1
  {
    RunCounts(tags, p, 0);
    assert tags[..p + 1][p] == CarBodyPlayer;
  }

  lemma {:induction false} RunCounts(tags: seq<string>, p: nat, c: int)
    requires p < |tags| && tags[p] == CarBodyPlayer
    requires forall k :: 0 <= k < p ==> tags[k] != CarBodyPlayer
    ensures Run(tags, c, false) == (c + CarBodies(tags[..p + 1]), true)
    decreases p
  {
    var step := if IsCarBody(tags[0]) then 1 else 0;
    if p == 0 {
      assert tags[..1] == [tags[0]];
      assert CarBodies(tags[..1]) == CarBodies([]) + 1;
      assert Run(tags[1..], c + 1, true) == (c + 1, true);
    } else {
      assert tags[1..][p - 1] == tags[p];
      RunCounts(tags[1..], p - 1, c + step);
      CarBodiesFront(tags[..p + 1]);
      assert tags[..p + 1][1..] == tags[1..][..p];
    }
  }

  /** Counting car bodies from the front: the first tag, then the rest. */
  lemma {:induction false} CarBodiesFront(tags: seq<string>)
    requires tags != []
    ensures CarBodies(tags) == (if IsCarBody(tags[0]) then 1 else 0) + CarBodies(tags[1..])
  {
    if |tags| > 1 {
      CarBodiesFront(tags[..|tags| - 1]);
      assert tags[..|tags| - 1][1..] == tags[1..][..|tags[1..]| - 1];
    } else {
      assert tags[1..] == [];
      assert tags[..0] == [];
    }
  }
}
