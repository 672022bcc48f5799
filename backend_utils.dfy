/**
 * The backend helpers: the required-field check applied to a transaction before
 * it is stored, and the rupee formatting of an amount.
 */
module BackendUtils {
  import opened Wrappers
  import Decimal

  /** The keys a transaction must carry, in the order they are checked. */
  const RequiredFields: seq<string> := ["amount", "category", "date"]

  /** The position of the first field of `fields` that is not a key of `data`; |fields| when none is missing. */
  function FirstMissing<V>(fields: seq<string>, data: map<string, V>): (i: nat)
    ensures i <= |fields|
    ensures forall j :: 0 <= j < i ==> fields[j] in data
    ensures i < |fields| ==> fields[i] !in data
    decreases |fields|
  {
    if fields == [] then 0
    else if fields[0] !in data then 0
    else
      var i := 1 + FirstMissing(fields[1..], data);
      assert forall j :: 1 <= j < |fields| ==> fields[j] == fields[1..][j - 1];
      i
  }

  /** `validate_transaction`: the message for the first missing required key, None when all are present. */
  function ValidateTransaction<V>(data: map<string, V>): (r: Option<string>)
    ensures r.None? <==> "amount" in data && "category" in data && "date" in data
    ensures !("amount" in data) ==> r == Some("Missing field: amount")
    ensures "amount" in data && "category" !in data ==> r == Some("Missing field: category")
    ensures "amount" in data && "category" in data && "date" !in data ==> r == Some("Missing field: date")
  {
    var i := FirstMissing(RequiredFields, data);
    assert RequiredFields[0] == "amount" && RequiredFields[1] == "category" && RequiredFields[2] == "date";
    assert "amount" !in data ==> i == 0;
    assert "amount" in data && "category" !in data ==> i == 1;
    assert "amount" in data && "category" in data && "date" !in data ==> i == 2;
    assert "Missing field: " + "amount" == "Missing field: amount";
    assert "Missing field: " + "category" == "Missing field: category";
    assert "Missing field: " + "date" == "Missing field: date";
    if i < |RequiredFields| then Some("Missing field: " + RequiredFields[i]) else None
  }

  /** Only the presence of the fields matters: their values, and every other key, are ignored. */
  lemma {:induction false} FirstMissingSeesOnlyKeys<V, W>(fields: seq<string>, a: map<string, V>, b: map<string, W>)
    requires forall f :: f in fields ==> (f in a <==> f in b)
    ensures FirstMissing(fields, a) == FirstMissing(fields, b)
    decreases |fields|
  {
    if fields != [] && fields[0] in a {
      FirstMissingSeesOnlyKeys(fields[1..], a, b);
    }
  }

  lemma ValidationSeesOnlyRequiredKeys<V, W>(a: map<string, V>, b: map<string, W>)
    requires forall f :: f in RequiredFields ==> (f in a <==> f in b)
    ensures ValidateTransaction(a) == ValidateTransaction(b)
  {
    FirstMissingSeesOnlyKeys(RequiredFields, a, b);
  }

  // ---------------------------------------------------------------------------
  // format_currency

  /**
   * `f"₹{amount:,.2f}"` for an amount given in paise (hundredths of a rupee):
   * the rupee sign, a minus sign for a negative amount, the rupees with a comma
   * before every group of three digits, a point and two digits of paise.
   */
  function FormatCurrency(paise: int): (s: string)
    ensures |s| >= 5 && s[0] == '\U{20B9}'
    ensures s[1] == '-' <==> paise < 0
    ensures var start := if paise < 0 then 2 else 1;
      && Decimal.IsDigit(s[start])
      && forall i :: start <= i < |s| - 3 ==> Decimal.IsDigit(s[i]) || s[i] == ','
    ensures s[|s| - 3] == '.' && Decimal.IsDigit(s[|s| - 2]) && Decimal.IsDigit(s[|s| - 1])
  {
    var magnitude := if paise < 0 then -paise else paise;
    var digits := Decimal.Show(magnitude / 100);
    Decimal.GroupShape(digits);
    ['\U{20B9}'] + (if paise < 0 then "-" else "") + Decimal.Group(digits) + "." + Decimal.Pad2(magnitude % 100)
  }

  /** The parts of a formatted amount: whether it is negative, the grouped rupees, the paise digits. */
  function CurrencyParts(s: string): Option<(bool, string, string)> {
    if |s| < 5 || s[0] != '\U{20B9}' || s[|s| - 3] != '.' then None
    else
      var body := s[1..|s| - 3];
      var negative := |body| > 0 && body[0] == '-';
      Some((negative, if negative then body[1..] else body, s[|s| - 2..]))
  }

  /** Reads a formatted amount back into paise. */
  function ParseCurrency(s: string): Option<int> {
    match CurrencyParts(s)
    case None => None
    case Some((negative, grouped, paise)) =>
      var rupees := Decimal.Ungroup(grouped);
      if !Decimal.AllDigits(rupees) || !Decimal.AllDigits(paise) then None
      else
        var magnitude := Decimal.Parse(rupees) * 100 + Decimal.Parse(paise);
        Some(if negative then -magnitude else magnitude)
  }

  lemma CurrencyPartsOf(negative: bool, grouped: string, paise: string)
    requires |grouped| > 0 && grouped[0] != '-' && |paise| == 2
    ensures var s := ['\U{20B9}'] + (if negative then "-" else "") + grouped + "." + paise;
      CurrencyParts(s) == Some((negative, grouped, paise)) && s[|s| - 3] == '.' && s[|s| - 2..] == paise
  {
    var sign := if negative then "-" else "";
    var s := ['\U{20B9}'] + sign + grouped + "." + paise;
    assert s[0] == '\U{20B9}' && |s| >= 5 && s[|s| - 3] == '.';
    var body := s[1..|s| - 3];
    assert body == sign + grouped;
    assert s[|s| - 2..] == paise;
    if negative {
      assert body[0] == '-' && body[1..] == grouped;
    } else {
      assert body == grouped && body[0] != '-';
    }
  }

  /** The rupees and paise of a magnitude read back as the magnitude. */
  lemma MagnitudeDigits(magnitude: nat)
    ensures Decimal.AllDigits(Decimal.Show(magnitude / 100))
    ensures Decimal.Parse(Decimal.Show(magnitude / 100)) * 100 + Decimal.Parse(Decimal.Pad2(magnitude % 100)) == magnitude
  {
    Decimal.ParseShow(magnitude / 100);
  }

  /** Reading back parts whose grouped rupees and paise come from a magnitude gives the signed magnitude. */
  lemma ParseFromParts(s: string, negative: bool, magnitude: nat)
    requires CurrencyParts(s) == Some((negative, Decimal.Group(Decimal.Show(magnitude / 100)), Decimal.Pad2(magnitude % 100)))
    ensures ParseCurrency(s) == Some(if negative then -(magnitude as int) else magnitude as int)
  {
    var digits := Decimal.Show(magnitude / 100);
    MagnitudeDigits(magnitude);
    Decimal.UngroupGroup(digits);
  }

  /** The formatted text reads back as the amount: no two amounts share a text. */
  lemma FormatCurrencyRoundTrip(paise: int)
    ensures ParseCurrency(FormatCurrency(paise)) == Some(paise)
  {
    var magnitude: nat := if paise < 0 then -paise else paise;
    var digits := Decimal.Show(magnitude / 100);
    var grouped := Decimal.Group(digits);
    var cents := Decimal.Pad2(magnitude % 100);
    var s := FormatCurrency(paise);
    assert s == ['\U{20B9}'] + (if paise < 0 then "-" else "") + grouped + "." + cents;
    Decimal.GroupShape(digits);
    CurrencyPartsOf(paise < 0, grouped, cents);
    ParseFromParts(s, paise < 0, magnitude);
  }
}
