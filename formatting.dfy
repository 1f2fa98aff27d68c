/**
  The text helpers of the report: `amount_emoji`, `format_dict` and
  `format_dict_with_emoji`. Turning a float into text (`str`) and rounding it
  to two decimals (`round(x, 2)`) are floating-point behaviour and are given
  as parameters.
 */
module Formatting {
  import opened Dicts
  import opened Brokerage

  /** `str` of a float, and `round(x, 2)`. */
  datatype Display = Display(str: real -> string, round2: real -> real)

  const Check: char := '\U{2705}'
  const Cross: char := '\U{274C}'

  /** `amount_emoji`: the rounded amount followed by a check mark when it is not negative, a cross otherwise. */
  function AmountEmoji(x: real, display: Display): (s: string)
    ensures |s| > 0 && s[..|s| - 1] == display.str(display.round2(x))
    ensures s[|s| - 1] == Check <==> x >= 0.0
    ensures s[|s| - 1] == Cross <==> x < 0.0
  {
    var text := display.str(display.round2(x));
    var s := text + [if x >= 0.0 then Check else Cross];
    assert s[..|s| - 1] == text;
    s
  }

  /** `sep.join(parts)`. */
  function Join(sep: string, parts: seq<string>): string {
    if parts == [] then ""
    else if |parts| == 1 then parts[0]
    else Join(sep, parts[..|parts| - 1]) + sep + parts[|parts| - 1]
  }

  /** Joining non-empty parts gives the empty text exactly when there are no parts. */
  lemma {:induction false} JoinEmpty(sep: string, parts: seq<string>)
    requires forall i :: 0 <= i < |parts| ==> parts[i] != ""
    ensures Join(sep, parts) == "" <==> parts == []
  {
    if |parts| > 1 {
      assert |Join(sep, parts)| >= |parts[|parts| - 1]| > 0;
    }
  }

  /** `f'{k}: {v}'` for one currency entry. */
  function AmountItem(c: Currency, v: real, display: Display): string {
    CurrencyName(c) + ": " + display.str(v)
  }

  function AmountItems(d: Dict<Currency, real>, display: Display): seq<string> {
    seq(|d|, i requires 0 <= i < |d| => AmountItem(d[i].0, d[i].1, display))
  }

  /**
    `format_dict`: the `k: v` items in dictionary order joined with `; `,
    so the empty dictionary gives the empty text and no other does.
   */
  function FormatDict(d: Dict<Currency, real>, display: Display): (s: string)
    ensures s == "" <==> d == []
    ensures |d| == 1 ==> s == AmountItem(d[0].0, d[0].1, display)
  {
    var items := AmountItems(d, display);
    JoinEmpty("; ", items);
    Join("; ", items)
  }

  /** One more entry adds `; ` and its item after the others. */
  lemma FormatDictSnoc(d: Dict<Currency, real>, c: Currency, v: real, display: Display)
    requires d != []
    ensures FormatDict(d + [(c, v)], display) == FormatDict(d, display) + "; " + AmountItem(c, v, display)
  {
    var items := AmountItems(d + [(c, v)], display);
    assert items[..|items| - 1] == AmountItems(d, display);
  }

  /** The values `format_dict_with_emoji` meets: floats, nested dictionaries, and anything else. */
  datatype Value = Float(x: real) | Nested(entries: seq<(string, Value)>) | Other

  /**
    The text one entry contributes: `name: <amount><emoji>; ` for a float,
    `name: ` and the nested text for a dictionary, nothing otherwise.
   */
  function ItemText(name: string, v: Value, display: Display): string
    decreases v, 2
  {
    match v
    case Float(x) => name + ": " + AmountEmoji(x, display) + "; "
    case Nested(es) => name + ": " + EmojiText(es, display)
    case Other => ""
  }

  /** The text of the first `n` entries. */
  function EmojiPrefix(data: seq<(string, Value)>, n: nat, display: Display): string
    requires n <= |data|
    decreases Nested(data), 0, n
  {
    if n == 0 then ""
    else EmojiPrefix(data, n - 1, display) + ItemText(data[n - 1].0, data[n - 1].1, display)
  }

  /** What `format_dict_with_emoji(data)` returns. */
  function EmojiText(data: seq<(string, Value)>, display: Display): string
    decreases Nested(data), 1
  {
    EmojiPrefix(data, |data|, display)
  }

  lemma {:induction false} EmojiPrefixOfPrefix(a: seq<(string, Value)>, b: seq<(string, Value)>, n: nat, display: Display)
    requires n <= |a| && n <= |b| && a[..n] == b[..n]
    ensures EmojiPrefix(a, n, display) == EmojiPrefix(b, n, display)
  {
    if n > 0 {
      assert a[..n - 1] == b[..n - 1] by { assert a[..n - 1] == a[..n][..n - 1]; assert b[..n - 1] == b[..n][..n - 1]; }
      assert a[n - 1] == a[..n][n - 1] == b[..n][n - 1] == b[n - 1];
      EmojiPrefixOfPrefix(a, b, n - 1, display);
    }
  }

  /**
    Entries contribute in order: a float `name: <amount><emoji>; `, a
    nested dictionary `name: ` followed by its own text, anything else
    nothing.
   */
  lemma EmojiTextSnoc(data: seq<(string, Value)>, name: string, v: Value, display: Display)
    ensures EmojiText(data + [(name, v)], display) == EmojiText(data, display) + ItemText(name, v, display)
    ensures v.Float? ==> ItemText(name, v, display) == name + ": " + AmountEmoji(v.x, display) + "; "
    ensures v.Nested? ==> ItemText(name, v, display) == name + ": " + EmojiText(v.entries, display)
    ensures v.Other? ==> ItemText(name, v, display) == ""
  {
    var data' := data + [(name, v)];
    assert data'[..|data|] == data[..|data|];
    EmojiPrefixOfPrefix(data', data, |data|, display);
  }

  /** The text is empty exactly when every entry is neither a float nor a dictionary. */
  lemma {:induction false} EmojiPrefixEmpty(data: seq<(string, Value)>, n: nat, display: Display)
    requires n <= |data|
    ensures EmojiPrefix(data, n, display) == "" <==> forall i :: 0 <= i < n ==> data[i].1.Other?
  {
    if n > 0 {
      EmojiPrefixEmpty(data, n - 1, display);
      var item := ItemText(data[n - 1].0, data[n - 1].1, display);
      assert !data[n - 1].1.Other? ==> |item| >= 2;
    }
  }

  lemma EmojiTextEmpty(data: seq<(string, Value)>, display: Display)
    ensures EmojiText(data, display) == "" <==> forall i :: 0 <= i < |data| ==> data[i].1.Other?
  {
    EmojiPrefixEmpty(data, |data|, display);
  }

  /** `format_dict_with_emoji`: a loop that appends each entry's text, recursing into nested dictionaries. */
  method FormatDictWithEmoji(data: seq<(string, Value)>, display: Display) returns (result: string)
    ensures result == EmojiText(data, display)
    decreases Nested(data)
  {
    result := "";
    for i := 0 to |data|
      invariant result == EmojiPrefix(data, i, display)
    {
      var name, value := data[i].0, data[i].1;
      match value
      case Nested(es) =>
        var inner := FormatDictWithEmoji(es, display);
        result := result + name + ": " + inner;
      case Float(x) =>
        result := result + name + ": " + AmountEmoji(x, display) + "; ";
      case Other =>
    }
  }
}
