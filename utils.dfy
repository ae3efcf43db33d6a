/** `parseCommandOptions` (src/utils/index.ts): an options object rendered
    as its entries, each as "key: value", joined by ", ". The parameter is
    the list `Object.entries` returns: distinct keys, in that list's order. */
module Utils {
  import opened JsText
  import opened Json

  const Separator := ", "

  /** `${key}: ${value}`. */
  function Entry(key: string, value: Json): string {
    key + ": " + ToJsString(value)
  }

  /** The entry renderings, in order. */
  function Entries(options: seq<(string, Json)>): (r: seq<string>)
    ensures |r| == |options|
    ensures forall i :: 0 <= i < |r| ==> r[i] == Entry(options[i].0, options[i].1)
  {
    seq(|options|, i requires 0 <= i < |options| => Entry(options[i].0, options[i].1))
  }

  function ParseCommandOptions(options: seq<(string, Json)>): string {
    Join(Entries(options), Separator)
  }

  /** The number of positions where ", " starts. */
  function CountSeparators(s: string): nat
    decreases |s|
  {
    if |s| < 2 then 0
    else (if s[0] == ',' && s[1] == ' ' then 1 else 0) + CountSeparators(s[1..])
  }

  /** Occurrences of ", " in a concatenation: those of each side, and one
      more exactly when the first ends in ',' and the second starts with ' '. */
  lemma {:induction false} CountSeparatorsConcat(a: string, b: string)
    ensures CountSeparators(a + b)
         == CountSeparators(a) + CountSeparators(b)
            + (if a != [] && b != [] && a[|a| - 1] == ',' && b[0] == ' ' then 1 else 0)
    decreases |a|
  {
    if a == [] {
      assert a + b == b;
    } else if |a| == 1 {
      assert (a + b)[1..] == b;
    } else {
      assert (a + b)[1..] == a[1..] + b;
      CountSeparatorsConcat(a[1..], b);
    }
  }

  /** With no ", " inside the pieces, a ", "-joined text holds exactly one
      separator fewer than it has pieces. */
  lemma {:induction false} JoinSeparators(xs: seq<string>)
    requires |xs| >= 1
    requires forall i :: 0 <= i < |xs| ==> CountSeparators(xs[i]) == 0
    ensures CountSeparators(Join(xs, Separator)) == |xs| - 1
    decreases |xs|
  {
    if |xs| > 1 {
      var rest := Join(xs[1..], Separator);
      JoinSeparators(xs[1..]);
      CountSeparatorsConcat(xs[0], Separator);
      assert CountSeparators(Separator) == 1;
      CountSeparatorsConcat(xs[0] + Separator, rest);
      assert (xs[0] + Separator)[|xs[0] + Separator| - 1] == ' ';
    }
  }

  /** An empty options object renders as the empty string; one entry as
      that entry alone. */
  lemma ParseCommandOptionsShort(options: seq<(string, Json)>)
    ensures options == [] ==> ParseCommandOptions(options) == ""
    ensures |options| == 1 ==> ParseCommandOptions(options) == options[0].0 + ": " + ToJsString(options[0].1)
  {
  }

  /** Entries appear in order: the rendering is the first entry, then the
      separator and the rendering of the remaining entries. */
  lemma ParseCommandOptionsOrder(options: seq<(string, Json)>)
    requires |options| >= 2
    ensures ParseCommandOptions(options)
         == Entry(options[0].0, options[0].1) + Separator + ParseCommandOptions(options[1..])
  {
    assert Entries(options)[1..] == Entries(options[1..]);
  }

  /** An entry holds ", " only where its key or its value does. */
  lemma EntrySeparators(key: string, value: Json)
    ensures CountSeparators(Entry(key, value)) == CountSeparators(key) + CountSeparators(ToJsString(value))
  {
    CountSeparatorsConcat(key, ": ");
    CountSeparatorsConcat(key + ": ", ToJsString(value));
    assert (key + ": ")[|key + ": "| - 1] == ' ';
  }

  /** With `n` entries whose keys and values hold no ", ", the output holds
      `n - 1` separators. */
  lemma ParseCommandOptionsSeparators(options: seq<(string, Json)>)
    requires |options| >= 1
    requires forall i :: 0 <= i < |options| ==> CountSeparators(options[i].0) == 0
    requires forall i :: 0 <= i < |options| ==> CountSeparators(ToJsString(options[i].1)) == 0
    ensures CountSeparators(ParseCommandOptions(options)) == |options| - 1
  {
    forall i | 0 <= i < |options| ensures CountSeparators(Entries(options)[i]) == 0 {
      EntrySeparators(options[i].0, options[i].1);
    }
    JoinSeparators(Entries(options));
  }
}
