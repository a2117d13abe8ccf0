/** `IdeaHealthMetrics`: one progress row per metric of an idea, labelled
    from the metric's camel-case key and coloured by threshold; a
    placeholder when the idea has no metrics. */
module HealthMetrics {
  import opened Domain

  datatype Color = Green | Yellow | Red

  /** The progress bar's colour: green above 75, yellow above 50, red
      otherwise (so 75 is yellow and 50 is red). */
  function ProgressColor(value: int): (c: Color)
    ensures c == Green <==> value > 75
    ensures c == Yellow <==> 50 < value <= 75
    ensures c == Red <==> value <= 50
  {
    if value > 75 then Green else if value > 50 then Yellow else Red
  }

  /** A higher value never gets a worse colour. */
  lemma ColorMonotone(a: int, b: int)
    requires a <= b
    ensures ProgressColor(a) == Green ==> ProgressColor(b) == Green
    ensures ProgressColor(b) == Red ==> ProgressColor(a) == Red
  {
  }

  predicate IsUpper(c: char)
  {
    'A' <= c <= 'Z'
  }

  /** The label of a key: a space inserted before every letter `A` to `Z`. */
  function Label(key: string): (shown: string)
    ensures |shown| >= |key|
  {
    if key == [] then []
    else if IsUpper(key[0]) then [' ', key[0]] + Label(key[1..])
    else [key[0]] + Label(key[1..])
  }

  /** A key without capitals is shown as it is. */
  lemma {:induction false} LabelKeepsLowerKey(key: string)
    requires forall i :: 0 <= i < |key| ==> !IsUpper(key[i])
    ensures Label(key) == key
  {
    if key != [] {
      LabelKeepsLowerKey(key[1..]);
    }
  }

  /** Undoes `Label`: drops each space that comes right before a letter
      `A` to `Z`. */
  function Unlabel(s: string): string
  {
    if s == [] then []
    else if |s| >= 2 && s[0] == ' ' && IsUpper(s[1]) then [s[1]] + Unlabel(s[2..])
    else [s[0]] + Unlabel(s[1..])
  }

  /** A key without spaces (as every camel-case key is) can be read back
      from its label: no two keys share a label. */
  lemma {:induction false} LabelRoundTrip(key: string)
    requires forall i :: 0 <= i < |key| ==> key[i] != ' '
    ensures Unlabel(Label(key)) == key
  {
    if key != [] {
      LabelRoundTrip(key[1..]);
      if IsUpper(key[0]) {
        assert ([' ', key[0]] + Label(key[1..]))[2..] == Label(key[1..]);
      } else {
        assert ([key[0]] + Label(key[1..]))[1..] == Label(key[1..]);
      }
    }
  }

  /** The label of one character. */
  function CharLabel(c: char): string
  {
    if IsUpper(c) then [' ', c] else [c]
  }

  /** `Label` on a string that starts with `c`. */
  lemma LabelCons(c: char, s: string)
    ensures Label([c] + s) == CharLabel(c) + Label(s)
  {
    assert ([c] + s)[0] == c && ([c] + s)[1..] == s;
  }

  /** Labelling works character by character: the label of a concatenation
      is the concatenation of the labels. */
  lemma {:induction false} LabelConcat(a: string, b: string)
    ensures Label(a + b) == Label(a) + Label(b)
  {
    if a == [] {
      assert a + b == b;
    } else {
      var c, rest := a[0], a[1..];
      assert a == [c] + rest;
      assert a + b == [c] + (rest + b);
      LabelCons(c, rest + b);
      LabelCons(c, rest);
      LabelConcat(rest, b);
      assert CharLabel(c) + (Label(rest) + Label(b)) == (CharLabel(c) + Label(rest)) + Label(b);
    }
  }

  /** A capital letter gets a space before it, wherever it stands
      (`marketSize` becomes `market Size`); other characters are kept. */
  lemma SpaceBeforeEachCapital(before: string, c: char, after: string)
    ensures IsUpper(c) ==> Label(before + [c] + after) == Label(before) + [' ', c] + Label(after)
    ensures !IsUpper(c) ==> Label(before + [c] + after) == Label(before) + [c] + Label(after)
  {
    LabelConcat(before + [c], after);
    LabelConcat(before, [c]);
    LabelCons(c, []);
    assert [c] + [] == [c];
  }

  /** One row of the card. */
  datatype Row = Row(caption: string, valueText: string, color: Color)

  datatype View = Placeholder | Rows(rows: seq<Row>)

  /** The card: the placeholder without data, else one row per metric in
      the order of the keys, showing the value as a percentage. */
  function Card(data: Option<Metrics>): (v: View)
    ensures data.None? <==> v.Placeholder?
    ensures data.Some? ==> |v.rows| == |data.value|
    ensures data.Some? ==> forall i :: 0 <= i < |data.value| ==>
              v.rows[i].caption == Label(data.value[i].0)
              && v.rows[i].valueText == Decimal(data.value[i].1) + "%"
              && v.rows[i].color == ProgressColor(data.value[i].1)
  {
    match data
    case None => Placeholder
    case Some(metrics) =>
      Rows(seq(|metrics|, i requires 0 <= i < |metrics| =>
        Row(Label(metrics[i].0), Decimal(metrics[i].1) + "%", ProgressColor(metrics[i].1))))
  }

  /** The text of a row gives its value back. */
  lemma ValueTextDetermined(a: int, b: int)
    requires Decimal(a) + "%" == Decimal(b) + "%"
    ensures a == b
  {
    assert Decimal(a) == (Decimal(a) + "%")[..|Decimal(a) + "%"| - 1];
    assert Decimal(b) == (Decimal(b) + "%")[..|Decimal(b) + "%"| - 1];
    DecimalInjective(a, b);
  }
}
