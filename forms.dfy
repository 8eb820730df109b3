/**
 * The add-to-cart form: a quantity picked from a fixed list of choices and an
 * optional hidden `override` flag.  Only a form that validates reaches
 * `Cart.add`, so this is what keeps the quantities in a cart positive.
 */
module CartForms {
  import opened Wrappers
  import opened Numerals

  /** The quantities offered are `range(1, 21)`. */
  const MinQuantity: nat := 1
  const MaxQuantity: nat := 20

  /** The pairs `(i, str(i))` for `lo <= i < hi`, in ascending order. */
  function ChoicesFrom(lo: nat, hi: nat): (r: seq<(nat, string)>)
    ensures |r| == if lo <= hi then hi - lo else 0
    ensures forall j :: 0 <= j < |r| ==> r[j] == (lo + j, Str(lo + j))
    decreases hi - lo
  {
    if hi <= lo then [] else [(lo, Str(lo))] + ChoicesFrom(lo + 1, hi)
  }

  /** `PRODUCT_QUANTITY_CHOICES`: twenty pairs `(i, str(i))`, i = 1..20. */
  function QuantityChoices(): (r: seq<(nat, string)>)
    ensures |r| == 20
    ensures forall j :: 0 <= j < |r| ==> r[j] == (j + 1, Str(j + 1))
  {
    ChoicesFrom(MinQuantity, MaxQuantity + 1)
  }

  /** The choice values strictly ascend and no two labels coincide. */
  lemma QuantityChoicesOrdered()
    ensures forall i, j :: 0 <= i < j < |QuantityChoices()| ==>
      QuantityChoices()[i].0 < QuantityChoices()[j].0 && QuantityChoices()[i].1 != QuantityChoices()[j].1
  {
    var r := QuantityChoices();
    forall i, j | 0 <= i < j < |r|
      ensures r[i].0 < r[j].0 && r[i].1 != r[j].1
    {
      StrInjective(i + 1, j + 1);
    }
  }

  /**
   * Choice validation: the value of the first choice whose value, written as a
   * string, is `text` (a submitted value is compared with `str(value)`).
   */
  function FindChoice(choices: seq<(nat, string)>, text: string): (r: Option<nat>)
    ensures r.Some? ==> Str(r.value) == text && exists j :: 0 <= j < |choices| && choices[j].0 == r.value
    ensures r.None? ==> forall j :: 0 <= j < |choices| ==> Str(choices[j].0) != text
  {
    if choices == [] then None
    else if Str(choices[0].0) == text then Some(choices[0].0)
    else
      var r := FindChoice(choices[1..], text);
      assert r.Some? ==> exists j :: 0 <= j < |choices[1..]| && choices[1..][j].0 == r.value;
      r
  }

  datatype FieldError = Required | InvalidChoice

  /**
   * The cleaned value of the required `quantity` field: missing or empty input
   * is `Required`, a value that is not one of the choices is `InvalidChoice`,
   * and an accepted value is coerced with `int`.
   */
  function CleanQuantity(raw: Option<string>): (r: Result<nat, FieldError>)
    ensures r.Ok? ==> MinQuantity <= r.value <= MaxQuantity && raw == Some(Str(r.value))
    ensures raw == None || raw == Some("") ==> r == Err(Required)
  {
    if raw == None || raw.value == "" then Err(Required)
    else
      match FindChoice(QuantityChoices(), raw.value)
      case None => Err(InvalidChoice)
      case Some(v) =>
        ParseStr(v);
        Ok(Parse(raw.value))
  }

  /** Exactly the labels "1".."20" are accepted, and each is read back as its own number. */
  lemma QuantityAccepted(s: string)
    ensures CleanQuantity(Some(s)).Ok? <==> exists i :: MinQuantity <= i <= MaxQuantity && s == Str(i)
    ensures forall i :: MinQuantity <= i <= MaxQuantity && s == Str(i) ==> CleanQuantity(Some(s)) == Ok(i)
  {
    var r := CleanQuantity(Some(s));
    if r.Ok? {
      var v := r.value;
      assert MinQuantity <= v <= MaxQuantity && s == Str(v);
      assert exists i :: MinQuantity <= i <= MaxQuantity && s == Str(i);
    }
    if i :| MinQuantity <= i <= MaxQuantity && s == Str(i) {
      var choices := QuantityChoices();
      assert choices[i - 1] == (i, Str(i));
      var found := FindChoice(choices, s);
      assert found.Some?;
      assert s != "";
      assert r == Ok(Parse(s));
      forall k | MinQuantity <= k <= MaxQuantity && s == Str(k)
        ensures r == Ok(k)
      {
        StrInjective(i, k);
        ParseStr(k);
      }
    }
  }

  /** ASCII lower-casing; no other character lower-cases into "false" or "0". */
  function LowerAscii(s: string): (r: string)
    ensures |r| == |s|
  {
    seq(|s|, i requires 0 <= i < |s| => if 'A' <= s[i] <= 'Z' then (s[i] as int + 32) as char else s[i])
  }

  /**
   * The cleaned value of the optional boolean `override` field: absent is
   * false, the words "false" and "0" in any letter case are false, and any
   * other string is true exactly when it is non-empty.
   */
  function CleanOverride(raw: Option<string>): (r: bool)
    ensures raw == None ==> !r
    ensures r ==> raw.Some? && raw.value != "" && raw.value != "0"
  {
    match raw
    case None => false
    case Some(s) =>
      assert s == "0" ==> LowerAscii(s) == "0";
      if LowerAscii(s) in {"false", "0"} then false else s != ""
  }

  /** What a hidden input renders for a Python bool: `str(True)` or `str(False)`. */
  function RenderBool(b: bool): string {
    if b then "True" else "False"
  }

  /** The hidden `override` input reads back the value it was rendered with. */
  lemma OverrideRoundTrip(b: bool)
    ensures CleanOverride(Some(RenderBool(b))) == b
  {
    if !b {
      assert LowerAscii("False") == "false";
    } else {
      assert LowerAscii("True") == "true";
    }
  }

  /** The cleaned data of a valid form. */
  datatype CartAddData = CartAddData(quantity: nat, overrideQuantity: bool)

  /**
   * `is_valid()` and `cleaned_data`: the form is valid exactly when the
   * quantity is; `override` never makes it invalid.
   */
  function CleanForm(quantity: Option<string>, overrideField: Option<string>): (r: Result<CartAddData, FieldError>)
    ensures r.Ok? <==> CleanQuantity(quantity).Ok?
    ensures r.Ok? ==> MinQuantity <= r.value.quantity <= MaxQuantity && quantity == Some(Str(r.value.quantity))
    ensures r.Ok? && overrideField == None ==> !r.value.overrideQuantity
  {
    match CleanQuantity(quantity)
    case Err(e) => Err(e)
    case Ok(q) => Ok(CartAddData(q, CleanOverride(overrideField)))
  }
}
