/** The weather card: the description built from the condition, the
    umbrella banner, and the one-shot rain toast guarded by a "notified"
    latch. */
module WeatherCard {
  import opened Common

  datatype Condition = Sunny | Cloudy | Rainy

  /** The condition as the card receives it: 'sunny', 'cloudy' or 'rainy'. */
  function ConditionName(c: Condition): (name: string)
    ensures |name| > 0 && 'a' <= name[0] <= 'z'
    ensures c == Sunny <==> name == "sunny"
    ensures c == Cloudy <==> name == "cloudy"
    ensures c == Rainy <==> name == "rainy"
  {
    match c
    case Sunny => "sunny"
    case Cloudy => "cloudy"
    case Rainy => "rainy"
  }

  /** `toUpperCase` on one character, for the ASCII letters. */
  function UpperAscii(ch: char): (u: char)
    ensures 'a' <= ch <= 'z' ==> 'A' <= u <= 'Z' && u as int - ch as int == 'A' as int - 'a' as int
    ensures !('a' <= ch <= 'z') ==> u == ch
  {
    if 'a' <= ch <= 'z' then (ch as int - 'a' as int + 'A' as int) as char else ch
  }

  /** `s.charAt(0).toUpperCase() + s.slice(1)`: the same string with its first
      letter upper-cased; the empty string stays empty. */
  function Capitalized(s: string): (r: string)
    ensures |r| == |s|
    ensures |s| > 0 ==> r[0] == UpperAscii(s[0]) && r[1..] == s[1..]
  {
    if s == [] then [] else [UpperAscii(s[0])] + s[1..]
  }

  /** The card's description line, e.g. "Cloudy conditions". */
  function Description(c: Condition): (d: string)
    ensures |d| == |ConditionName(c)| + |" conditions"|
    ensures d[0] == UpperAscii(ConditionName(c)[0]) && 'A' <= d[0] <= 'Z'
    ensures d[1..|ConditionName(c)|] == ConditionName(c)[1..]
    ensures d[|ConditionName(c)|..] == " conditions"
  {
    Capitalized(ConditionName(c)) + " conditions"
  }

  /** The Home screen's card reads "Cloudy conditions". */
  lemma CloudyDescription()
    ensures Description(Cloudy) == "Cloudy conditions"
  {
    assert UpperAscii('c') == 'C';
    assert Capitalized("cloudy") == "Cloudy";
  }

  /** The umbrella banner: strictly more than 50 %, so 50 shows none and 51
      shows it. */
  function ShowUmbrellaBanner(chanceOfRain: real): (show: bool)
    ensures show <==> chanceOfRain > 50.0
  {
    chanceOfRain > 50.0
  }

  lemma UmbrellaBoundary()
    ensures !ShowUmbrellaBanner(50.0) && ShowUmbrellaBanner(51.0)
  {
  }

  const RainToast: Toast := Toast(Some("Rain expected today!"), "Don't forget your umbrella.", 5000)

  /** The rain-toast state of one card. `toastsShown` counts the toasts the
      card has raised. */
  class RainAlert {
    var notified: bool
    ghost var toastsShown: nat

    /** The latch is set exactly when a toast has been shown, and then only
        one. */
    ghost predicate Valid()
      reads this
    {
      toastsShown == if notified then 1 else 0
    }

    constructor ()
      ensures Valid() && !notified && toastsShown == 0
    {
      notified := false;
      toastsShown := 0;
    }

    /** The card's effect, run whenever the chance of rain or the latch
        changes: a toast only above 50 % and only while the latch is clear,
        after which the latch stays set. */
    method RunEffect(chanceOfRain: real) returns (toast: Option<Toast>)
      requires Valid()
      modifies this
      ensures Valid() && toastsShown <= 1
      ensures toast.Some? <==> chanceOfRain > 50.0 && !old(notified)
      ensures toast.Some? ==> toast.value == RainToast && ShowUmbrellaBanner(chanceOfRain)
      ensures notified <==> old(notified) || chanceOfRain > 50.0
      ensures toastsShown == old(toastsShown) + (if toast.Some? then 1 else 0)
    {
      if chanceOfRain > 50.0 && !notified {
        toast := Some(RainToast);
        notified := true;
        toastsShown := toastsShown + 1;
      } else {
        toast := None;
      }
    }
  }
}
