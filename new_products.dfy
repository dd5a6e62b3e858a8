/** The product upload wizard (`NewProducts`): a three-step form with field validation, a price
    input that keeps only digits and dots, image checks, and saving into the catalog. */
module NewProducts {
  import opened Wrappers
  import opened Text
  import opened Seqs
  import opened Menu
  import opened Orders

  /** The text fields of the form, as typed. */
  datatype FormData = FormData(name: string, price: string, category: string, description: string)

  /** One message per field; "" where the field has no error. */
  datatype FormErrors = FormErrors(name: string, price: string, category: string, description: string)

  /** The `name` attribute `handleChange` dispatches on. */
  datatype Field = Name | Price | Category | Description

  /** The chosen file: its MIME type and its size in bytes. */
  datatype ImageFile = ImageFile(mimeType: string, size: nat)

  const EmptyForm := FormData("", "", "", "")
  const NoErrors := FormErrors("", "", "", "")

  /** `steps.length`: Product Details, Upload Image, Preview & Save. */
  const StepCount: int := 3

  /** 5 MB, as `5 * 1024 * 1024` bytes. */
  const MaxImageBytes: nat := 5 * 1024 * 1024

  /** How many entries the "recently added" panel holds. */
  const RecentLimit: nat := 4

  predicate IsPriceChar(c: char) {
    IsDigit(c) || c == '.'
  }

  predicate IsPriceText(s: string) {
    forall i :: 0 <= i < |s| ==> IsPriceChar(s[i])
  }

  /** `value.replace(/[^0-9.]/g, '')`. */
  function SanitizePrice(s: string): (r: string)
    ensures IsPriceText(r)
  {
    Filter(IsPriceChar, s)
  }

  /** Sanitising keeps every digit and dot, in order, drops everything else, and changes nothing a
      second time. */
  lemma SanitizePriceSpec(s: string, c: char)
    ensures IsSubsequence(SanitizePrice(s), s)
    ensures multiset(SanitizePrice(s))[c] == if IsPriceChar(c) then multiset(s)[c] else 0
    ensures SanitizePrice(SanitizePrice(s)) == SanitizePrice(s)
  {
    FilterIsSubsequence(IsPriceChar, s);
    FilterCount(IsPriceChar, s, c);
    FilterAll(IsPriceChar, SanitizePrice(s));
  }

  /** Sanitising text that is already digits and dots leaves it unchanged. */
  lemma SanitizePriceText(s: string)
    requires IsPriceText(s)
    ensures SanitizePrice(s) == s
  {
    FilterAll(IsPriceChar, s);
  }

  /** The longest prefix of decimal digits. */
  function LeadingDigits(s: string): (r: string)
    ensures |r| <= |s| && r == s[..|r|]
    ensures forall i :: 0 <= i < |r| ==> IsDigit(r[i])
    ensures |r| == |s| || !IsDigit(s[|r|])
  {
    if s != [] && IsDigit(s[0]) then [s[0]] + LeadingDigits(s[1..]) else ""
  }

  /** The value of the digits after a decimal point. */
  function FractionValue(ds: string): (v: real)
    requires forall i :: 0 <= i < |ds| ==> IsDigit(ds[i])
    ensures 0.0 <= v < 1.0
  {
    if ds == [] then 0.0 else (DigitValue(ds[0]) as real + FractionValue(ds[1..])) / 10.0
  }

  /** `parseFloat` on text made of digits and dots (the only text the price field holds): the
      digits before the first dot, then the digits between it and any further dot; `None` (NaN)
      when neither part has a digit. */
  function ParsePrice(s: string): (r: Option<real>)
    ensures r.Some? ==> r.value >= 0.0
    ensures r.None? <==> (LeadingDigits(s) == "" && (s == [] || s[0] != '.' || LeadingDigits(s[1..]) == ""))
  {
    var whole := LeadingDigits(s);
    var rest := s[|whole|..];
    var fraction := if rest != [] && rest[0] == '.' then LeadingDigits(rest[1..]) else "";
    if whole == "" && fraction == "" then None
    else Some(DigitsValue(whole) as real + FractionValue(fraction))
  }

  /** A whole number written in decimal parses to itself. */
  lemma ParsePriceOfNat(n: nat)
    ensures ParsePrice(NatToString(n)) == Some(n as real)
  {
    var s := NatToString(n);
    AllDigitsLeading(s);
    NatToStringRoundTrip(n);
  }

  lemma {:induction false} AllDigitsLeading(s: string)
    requires forall i :: 0 <= i < |s| ==> IsDigit(s[i])
    ensures LeadingDigits(s) == s
  {
    if s != [] {
      AllDigitsLeading(s[1..]);
    }
  }

  /** `parseFloat` reads up to the second dot. */
  lemma ParsePriceStopsAtSecondDot()
    ensures ParsePrice("1.2.3") == Some(1.2)
  {
    assert LeadingDigits("1.2.3") == "1" by {
      assert "1.2.3"[1..] == ".2.3";
    }
    assert "1.2.3"[1..][1..] == "2.3";
    assert LeadingDigits("2.3") == "2" by {
      assert "2.3"[1..] == ".3";
    }
    assert FractionValue("2") == 0.2 by {
      assert "2"[1..] == "";
    }
    assert DigitsValue("1") == 1 by {
      assert "1"[..0] == "";
    }
  }

  /** A leading dot is read as "0.", and a lone dot is no number. */
  lemma ParsePriceLeadingDot()
    ensures ParsePrice(".5") == Some(0.5)
    ensures ParsePrice(".") == None
  {
    assert ".5"[1..] == "5";
    assert LeadingDigits("5") == "5" by {
      assert "5"[1..] == "";
    }
    assert FractionValue("5") == 0.5 by {
      assert "5"[1..] == "";
    }
  }

  /** A price is accepted when it is present and parses to a positive number. */
  predicate PriceValid(price: string) {
    price != "" && ParsePrice(price).Some? && ParsePrice(price).value > 0.0
  }

  /** Text with no digit at all, such as "." or "..", is rejected. */
  lemma PriceWithoutDigitsInvalid(price: string)
    requires forall i :: 0 <= i < |price| ==> !IsDigit(price[i])
    ensures !PriceValid(price)
  {
    if |price| > 1 {
      assert LeadingDigits(price[1..]) == "" by {
        assert !IsDigit(price[1..][0]);
      }
    }
  }

  /** Text made of decimal digits only. */
  predicate IsDigits(s: string) {
    forall i :: 0 <= i < |s| ==> IsDigit(s[i])
  }

  /** Some character of the text is a digit other than 0. */
  predicate HasNonZeroDigit(s: string) {
    exists i :: 0 <= i < |s| && IsDigit(s[i]) && s[i] != '0'
  }

  /** The digits of a run end where the first non-digit starts. */
  lemma {:induction false} LeadingDigitsOf(w: string, x: string)
    requires IsDigits(w) && (x == [] || !IsDigit(x[0]))
    ensures LeadingDigits(w + x) == w
  {
    if w == [] {
      assert w + x == x;
    } else {
      assert (w + x)[1..] == w[1..] + x;
      LeadingDigitsOf(w[1..], x);
    }
  }

  /** Digits without a dot parse to their decimal value. */
  lemma ParsePriceWhole(w: string)
    requires IsDigits(w)
    ensures ParsePrice(w) == if w == "" then None else Some(DigitsValue(w) as real)
  {
    AllDigitsLeading(w);
    assert w[|w|..] == "";
  }

  /** Digits, then a dot after which the digits `f` run: the value is the digits' value plus the
      fraction `f`. */
  lemma ParsePriceDot(w: string, tail: string, f: string)
    requires IsDigits(w) && tail != [] && tail[0] == '.' && LeadingDigits(tail[1..]) == f
    ensures ParsePrice(w + tail)
            == if w == "" && f == "" then None else Some(DigitsValue(w) as real + FractionValue(f))
  {
    var p := w + tail;
    assert LeadingDigits(p) == w && p[|w|..] == tail by {
      LeadingDigitsOf(w, tail);
    }
  }

  /** Regrouping a decimal text as its integer digits followed by the rest. */
  lemma DotConcat(w: string, f: string, rest: string)
    ensures w + "." + f + rest == w + ("." + f + rest)
    ensures ("." + f + rest)[1..] == f + rest
  {
  }

  /** After the dot of a decimal, the fraction's digits run to the next dot. */
  lemma FractionAfterDot(f: string, rest: string)
    requires IsDigits(f) && (rest == [] || rest[0] == '.')
    ensures LeadingDigits(("." + f + rest)[1..]) == f
  {
    var tail := "." + f + rest;
    assert tail[1..] == f + rest;
    LeadingDigitsOf(f, rest);
  }

  /** Digits, a dot, digits, then nothing or another dot: the value is the integer part plus the
      fraction, and whatever follows the second dot is ignored. */
  lemma ParsePriceDecimal(w: string, f: string, rest: string)
    requires IsDigits(w) && IsDigits(f) && (rest == [] || rest[0] == '.')
    ensures ParsePrice(w + "." + f + rest)
            == if w == "" && f == "" then None else Some(DigitsValue(w) as real + FractionValue(f))
  {
    DotConcat(w, f, rest);
    FractionAfterDot(f, rest);
    ParsePriceDot(w, "." + f + rest, f);
  }

  /** Digits, a dot and fraction digits, with nothing after them. */
  lemma ParsePriceDigitsDot(w: string, ds: string)
    requires IsDigits(w) && IsDigits(ds)
    ensures ParsePrice(w + "." + ds)
            == if w == "" && ds == "" then None else Some(DigitsValue(w) as real + FractionValue(ds))
  {
    assert w + "." + ds == w + ("." + ds);
    assert ("." + ds)[1..] == ds;
    AllDigitsLeading(ds);
    ParsePriceDot(w, "." + ds, ds);
  }

  /** Digits have a positive value exactly when one of them is not 0. */
  lemma {:induction false} DigitsValuePositive(w: string)
    requires IsDigits(w)
    ensures DigitsValue(w) > 0 <==> HasNonZeroDigit(w)
  {
    if w != [] {
      var init := w[..|w| - 1];
      DigitsValuePositive(init);
      if HasNonZeroDigit(init) {
        var i :| 0 <= i < |init| && IsDigit(init[i]) && init[i] != '0';
        assert w[i] == init[i];
      }
      if HasNonZeroDigit(w) {
        var i :| 0 <= i < |w| && IsDigit(w[i]) && w[i] != '0';
        if i < |w| - 1 {
          assert init[i] == w[i];
        }
      }
    }
  }

  /** A fraction is positive exactly when one of its digits is not 0. */
  lemma {:induction false} FractionValuePositive(f: string)
    requires IsDigits(f)
    ensures FractionValue(f) > 0.0 <==> HasNonZeroDigit(f)
  {
    if f != [] {
      FractionValuePositive(f[1..]);
      if HasNonZeroDigit(f[1..]) {
        var i :| 0 <= i < |f[1..]| && IsDigit(f[1..][i]) && f[1..][i] != '0';
        assert f[i + 1] == f[1..][i];
      }
      if HasNonZeroDigit(f) {
        var i :| 0 <= i < |f| && IsDigit(f[i]) && f[i] != '0';
        if i > 0 {
          assert f[1..][i - 1] == f[i];
        }
      }
    }
  }

  lemma HasNonZeroDigitAppend(a: string, b: string)
    ensures HasNonZeroDigit(a + b) <==> HasNonZeroDigit(a) || HasNonZeroDigit(b)
  {
    if HasNonZeroDigit(a + b) {
      var i :| 0 <= i < |a + b| && IsDigit((a + b)[i]) && (a + b)[i] != '0';
      if i >= |a| {
        assert b[i - |a|] == (a + b)[i];
      }
    }
    if HasNonZeroDigit(a) {
      var i :| 0 <= i < |a| && IsDigit(a[i]) && a[i] != '0';
      assert (a + b)[i] == a[i];
    }
    if HasNonZeroDigit(b) {
      var i :| 0 <= i < |b| && IsDigit(b[i]) && b[i] != '0';
      var j := |a| + i;
      assert (a + b)[j] == b[i];
      assert 0 <= j < |a + b| && IsDigit((a + b)[j]) && (a + b)[j] != '0';
    }
  }

  /** The text up to (not including) its second dot, which is all that `parseFloat` reads of a
      digits-and-dots text. */
  function UntilSecondDot(s: string, dotsSeen: nat): string
    requires dotsSeen <= 1
  {
    if s == [] then ""
    else if s[0] == '.' then (if dotsSeen == 1 then "" else "." + UntilSecondDot(s[1..], 1))
    else [s[0]] + UntilSecondDot(s[1..], dotsSeen)
  }

  /** Digits are read through whatever the dot count. */
  lemma {:induction false} UntilSecondDotDigits(w: string, x: string, dotsSeen: nat)
    requires IsDigits(w) && dotsSeen <= 1
    ensures UntilSecondDot(w + x, dotsSeen) == w + UntilSecondDot(x, dotsSeen)
  {
    if w == [] {
      assert w + x == x;
    } else {
      assert (w + x)[1..] == w[1..] + x;
      UntilSecondDotDigits(w[1..], x, dotsSeen);
    }
  }

  /** Of a decimal text, everything up to the second dot is the integer digits, the dot and the
      fraction digits. */
  lemma {:induction false} UntilSecondDotDecimal(w: string, f: string, rest: string)
    requires IsDigits(w) && IsDigits(f) && (rest == [] || rest[0] == '.')
    ensures UntilSecondDot(w + "." + f + rest, 0) == w + "." + f
  {
    var tail := "." + f + rest;
    DotConcat(w, f, rest);
    UntilSecondDotDigits(w, tail, 0);
    UntilSecondDotRun(f, rest);
    assert UntilSecondDot(tail, 0) == "." + f;
    assert w + ("." + f) == w + "." + f;
  }

  /** Text without a dot is read whole. */
  lemma {:induction false} UntilSecondDotOfDigits(w: string, dotsSeen: nat)
    requires IsDigits(w) && dotsSeen <= 1
    ensures UntilSecondDot(w, dotsSeen) == w
  {
    if w != [] {
      UntilSecondDotOfDigits(w[1..], dotsSeen);
    }
  }

  /** After the first dot, a run of digits is read up to the second dot or the end. */
  lemma {:induction false} UntilSecondDotRun(f: string, rest: string)
    requires IsDigits(f) && (rest == [] || rest[0] == '.')
    ensures UntilSecondDot(f + rest, 1) == f
  {
    if f == [] {
      assert f + rest == rest;
    } else {
      assert (f + rest)[1..] == f[1..] + rest;
      UntilSecondDotRun(f[1..], rest);
    }
  }

  /** A price without a dot is accepted exactly when it has a non-zero digit. */
  lemma PriceValidWhole(w: string)
    requires IsDigits(w)
    ensures PriceValid(w) <==> HasNonZeroDigit(w)
  {
    ParsePriceWhole(w);
    DigitsValuePositive(w);
  }

  /** A price with a dot is accepted exactly when a non-zero digit occurs before the dot or
      between it and the next dot. */
  lemma PriceValidDecimal(w: string, f: string, rest: string)
    requires IsDigits(w) && IsDigits(f) && (rest == [] || rest[0] == '.')
    ensures PriceValid(w + "." + f + rest) <==> HasNonZeroDigit(w) || HasNonZeroDigit(f)
  {
    ParsePriceDecimal(w, f, rest);
    DigitsValuePositive(w);
    FractionValuePositive(f);
  }

  /** Every digits-and-dots text is a run of digits, optionally followed by a dot, a second run of
      digits and then nothing or another dot. */
  lemma PriceTextParts(p: string) returns (w: string, f: string, rest: string)
    requires IsPriceText(p)
    ensures IsDigits(w) && IsDigits(f) && (rest == [] || rest[0] == '.')
    ensures p == w || p == w + "." + f + rest
    ensures p == w ==> f == "" && rest == ""
  {
    w := LeadingDigits(p);
    var tail := p[|w|..];
    assert p == w + tail;
    if tail == [] {
      f, rest := "", "";
    } else {
      assert tail[0] == p[|w|];
      var q := tail[1..];
      f := LeadingDigits(q);
      rest := q[|f|..];
      if rest != [] {
        assert rest[0] == q[|f|] == p[|w| + 1 + |f|];
      }
      DotSplit(w, tail, f, rest);
    }
  }

  /** A dot followed by a run of digits and the rest, regrouped. */
  lemma DotSplit(w: string, tail: string, f: string, rest: string)
    requires tail != [] && tail[0] == '.' && |f| <= |tail| - 1
    requires f == tail[1..][..|f|] && rest == tail[1..][|f|..]
    ensures w + tail == w + "." + f + rest
  {
    assert tail == "." + f + rest;
  }

  /** The price rule of `validateForm`, for every text the price field can hold: a price is accepted
      exactly when a non-zero digit occurs before its second dot. */
  lemma PriceValidIff(p: string)
    requires IsPriceText(p)
    ensures PriceValid(p) <==> HasNonZeroDigit(UntilSecondDot(p, 0))
  {
    var w, f, rest := PriceTextParts(p);
    if p == w {
      PriceValidWhole(w);
      UntilSecondDotOfDigits(w, 0);
    } else {
      PriceValidDecimal(w, f, rest);
      UntilSecondDotDecimal(w, f, rest);
      HasNonZeroDigitAppend(w + ".", f);
      HasNonZeroDigitAppend(w, ".");
      assert !HasNonZeroDigit(".");
    }
  }

  /** Text that is whitespace only (the empty text included). */
  predicate Blank(s: string) {
    forall i :: 0 <= i < |s| ==> IsWhitespace(s[i])
  }

  /** The rules of `validateForm`, all together: a name and a description that are not blank, a
      positive price, a category, and a description of at least ten characters. */
  predicate FormValid(f: FormData) {
    && !Blank(f.name)
    && PriceValid(f.price)
    && f.category != ""
    && !Blank(f.description) && |f.description| >= 10
  }

  /** The messages `validateForm` records; each field's message is present exactly when its rule
      fails, so the form is valid exactly when no message is recorded. */
  function FieldErrors(f: FormData): (e: FormErrors)
    ensures e == NoErrors <==> FormValid(f)
    ensures e.name != "" <==> Blank(f.name)
    ensures e.price != "" <==> !PriceValid(f.price)
    ensures e.category != "" <==> f.category == ""
    ensures e.description != "" <==> (Blank(f.description) || |f.description| < 10)
  {
    FormErrors(
      if Blank(f.name) then "Product name is required" else "",
      if f.price == "" then "Price is required"
      else if !PriceValid(f.price) then "Please enter a valid price" else "",
      if f.category == "" then "Category is required" else "",
      if Blank(f.description) then "Description is required"
      else if |f.description| < 10 then "Description must be at least 10 characters" else "")
  }

  /** The body of `validateForm`: the messages are collected field by field while a flag records
      whether any rule failed. */
  method CollectErrors(f: FormData) returns (newErrors: FormErrors, isValid: bool)
    ensures newErrors == FieldErrors(f)
    ensures isValid <==> newErrors == NoErrors
    ensures isValid <==> FormValid(f)
  {
    ghost var e := FieldErrors(f);
    newErrors := NoErrors;
    isValid := true;
    if Trim(f.name) == "" {
      newErrors := newErrors.(name := "Product name is required");
      isValid := false;
    }
    assert newErrors == NoErrors.(name := e.name) && (isValid <==> e.name == "") by {
      TrimEmptyIff(f.name);
    }
    if f.price == "" {
      newErrors := newErrors.(price := "Price is required");
      isValid := false;
    } else {
      var parsed := ParsePrice(f.price);
      if parsed.None? || parsed.value <= 0.0 {
        newErrors := newErrors.(price := "Please enter a valid price");
        isValid := false;
      }
    }
    assert newErrors == NoErrors.(name := e.name, price := e.price)
        && (isValid <==> e.name == "" && e.price == "");
    if f.category == "" {
      newErrors := newErrors.(category := "Category is required");
      isValid := false;
    }
    assert newErrors == e.(description := "")
        && (isValid <==> e.name == "" && e.price == "" && e.category == "");
    if Trim(f.description) == "" {
      newErrors := newErrors.(description := "Description is required");
      isValid := false;
    } else if |f.description| < 10 {
      newErrors := newErrors.(description := "Description must be at least 10 characters");
      isValid := false;
    }
    assert newErrors == e && (isValid <==> e == NoErrors) by {
      TrimEmptyIff(f.description);
    }
  }

  /** The checks of `handleImageChange`: the type must contain "image/" and the size must not
      exceed 5 MB; the result is the message shown, or `None` when the file is accepted. */
  function CheckImage(file: ImageFile): (r: Option<string>)
    ensures r.None? <==> Includes(file.mimeType, "image/") && file.size <= MaxImageBytes
    ensures !Includes(file.mimeType, "image/") ==> r == Some("Please upload an image file")
    ensures Includes(file.mimeType, "image/") && file.size > MaxImageBytes
            ==> r == Some("Image must be less than 5MB")
  {
    if !Includes(file.mimeType, "image/") then Some("Please upload an image file")
    else if file.size > MaxImageBytes then Some("Image must be less than 5MB")
    else None
  }

  /** Exactly 5 MB is accepted, one byte more is not. */
  lemma ImageSizeBoundary(mimeType: string)
    requires Includes(mimeType, "image/")
    ensures CheckImage(ImageFile(mimeType, 5242880)) == None
    ensures CheckImage(ImageFile(mimeType, 5242881)) == Some("Image must be less than 5MB")
  {
  }

  /** `items.slice(-4).reverse()`: the last four items at most, newest first. */
  function InitialRecent(items: seq<MenuItem>): (r: seq<MenuItem>)
    ensures |r| == Min(RecentLimit, |items|)
    ensures forall k :: 0 <= k < |r| ==> r[k] == items[|items| - 1 - k]
  {
    Reverse(items[|items| - Min(RecentLimit, |items|)..])
  }

  /** `[newItem, ...recentlyAdded.slice(0, 3)]`: the new item first, then at most three of the
      previous entries in their order, so the list never holds more than four. */
  function PushRecent(recent: seq<MenuItem>, item: MenuItem): (r: seq<MenuItem>)
    ensures 1 <= |r| <= RecentLimit && r[0] == item
    ensures |r| == Min(RecentLimit, |recent| + 1)
    ensures forall k :: 1 <= k < |r| ==> r[k] == recent[k - 1]
  {
    [item] + recent[..Min(RecentLimit - 1, |recent|)]
  }

  /** The catalog entry `handleSave` builds from the form and the image preview. */
  function NewItem(id: nat, f: FormData, image: string): (item: MenuItem)
    requires PriceValid(f.price)
    ensures item.price > 0.0 && Some(item.price) == ParsePrice(f.price)
    ensures item.id == id && item.name == f.name && item.category == f.category
    ensures item.description == f.description && item.image == image
  {
    MenuItem(id, f.name, ParsePrice(f.price).value, f.category, f.description, image)
  }

  /** The component's state. */
  class ProductUpload {
    var activeStep: int
    var imagePreview: Option<string>
    var imageFile: Option<ImageFile>
    var imageError: string
    var openSuccess: bool
    var recentlyAdded: seq<MenuItem>
    var formData: FormData
    var errors: FormErrors

    predicate ImageReady()
      reads this`imageFile, this`imagePreview
    {
      imageFile.Some? && imagePreview.Some?
    }

    /** The wizard stays on one of its three steps; the price text holds only digits and dots; the
        recent panel holds at most four entries; a step past the details has a valid form, and the
        last step has an image. */
    ghost predicate Valid()
      reads this`activeStep, this`formData, this`recentlyAdded, this`imageFile, this`imagePreview
    {
      && 0 <= activeStep < StepCount
      && IsPriceText(formData.price)
      && |recentlyAdded| <= RecentLimit
      && (activeStep >= 1 ==> FormValid(formData))
      && (activeStep == StepCount - 1 ==> ImageReady())
    }

    constructor ()
      ensures Valid()
      ensures activeStep == 0 && imagePreview == None && imageFile == None && imageError == ""
      ensures !openSuccess && recentlyAdded == [] && formData == EmptyForm && errors == NoErrors
    {
      activeStep := 0;
      imagePreview, imageFile := None, None;
      imageError := "";
      openSuccess := false;
      recentlyAdded := [];
      formData := EmptyForm;
      errors := NoErrors;
    }

    /** The initial load of the recent panel from the stored catalog. */
    method LoadRecentlyAdded(stored: Option<seq<MenuItem>>)
      requires Valid()
      modifies this`recentlyAdded
      ensures Valid()
      ensures recentlyAdded == if stored.Some? && |stored.value| > 0 then InitialRecent(stored.value)
                               else old(recentlyAdded)
    {
      if stored.Some? && |stored.value| > 0 {
        recentlyAdded := InitialRecent(stored.value);
      }
    }

    /** `handleChange` for the name, category and description fields (the price field has its own
        handler); they are shown on the first step only. A recorded error for the field is cleared. */
    method HandleChange(field: Field, value: string)
      requires Valid() && activeStep == 0 && field != Price
      modifies this`formData, this`errors
      ensures Valid()
      ensures formData == match field
        case Name => old(formData).(name := value)
        case Category => old(formData).(category := value)
        case Description => old(formData).(description := value)
        case Price => old(formData)
      ensures errors == match field
        case Name => if old(errors).name != "" then old(errors).(name := "") else old(errors)
        case Category => if old(errors).category != "" then old(errors).(category := "") else old(errors)
        case Description =>
          if old(errors).description != "" then old(errors).(description := "") else old(errors)
        case Price => old(errors)
    {
      match field {
        case Name =>
          formData := formData.(name := value);
          if errors.name != "" {
            errors := errors.(name := "");
          }
        case Category =>
          formData := formData.(category := value);
          if errors.category != "" {
            errors := errors.(category := "");
          }
        case Description =>
          formData := formData.(description := value);
          if errors.description != "" {
            errors := errors.(description := "");
          }
      }
    }

    /** `handlePriceChange`: the price becomes the sanitised input; a price error is cleared. */
    method HandlePriceChange(value: string)
      requires Valid() && activeStep == 0
      modifies this`formData, this`errors
      ensures Valid()
      ensures formData == old(formData).(price := SanitizePrice(value))
      ensures errors == old(errors).(price := "")
    {
      formData := formData.(price := SanitizePrice(value));
      if errors.price != "" {
        errors := errors.(price := "");
      }
    }

    /** `handleImageChange` on the image step: the error is cleared, then a rejected file sets its
        message and an accepted one becomes the chosen file. The preview arrives separately. */
    method HandleImageChange(file: Option<ImageFile>)
      requires Valid() && activeStep == 1
      modifies this`imageError, this`imageFile
      ensures Valid()
      ensures imageError == if file.None? then "" else CheckImage(file.value).GetOr("")
      ensures imageFile == if file.Some? && CheckImage(file.value).None? then file else old(imageFile)
    {
      imageError := "";
      if file.None? {
        return;
      }
      var problem := CheckImage(file.value);
      if problem.Some? {
        imageError := problem.value;
        return;
      }
      imageFile := file;
    }

    /** The file reader's `onload`: the data URL becomes the preview. */
    method PreviewLoaded(dataUrl: string)
      requires Valid()
      modifies this`imagePreview
      ensures Valid() && imagePreview == Some(dataUrl)
    {
      imagePreview := Some(dataUrl);
    }

    /** The remove button on the image preview. */
    method RemoveImage()
      requires Valid() && activeStep == 1
      modifies this`imagePreview, this`imageFile
      ensures Valid() && imagePreview == None && imageFile == None
    {
      imagePreview := None;
      imageFile := None;
    }

    /** `validateForm`: records the messages and reports whether there are none. */
    method ValidateForm() returns (isValid: bool)
      requires Valid()
      modifies this`errors
      ensures Valid()
      ensures errors == FieldErrors(formData)
      ensures isValid <==> FormValid(formData)
    {
      var newErrors;
      newErrors, isValid := CollectErrors(formData);
      errors := newErrors;
    }

    /** `validateImage`: both a file and its preview are needed. */
    method ValidateImage() returns (ok: bool)
      requires Valid()
      modifies this`imageError
      ensures Valid()
      ensures ok == ImageReady()
      ensures imageError == if ok then old(imageError) else "Please upload an image"
    {
      if imageFile.None? || imagePreview.None? {
        imageError := "Please upload an image";
        return false;
      }
      return true;
    }

    /** `handleNext` (the Next button is not shown on the last step): leaving the details step needs
        a valid form and leaving the image step needs an image. */
    method HandleNext()
      requires Valid() && activeStep != StepCount - 1
      modifies this`activeStep, this`errors, this`imageError
      ensures Valid()
      ensures activeStep == if (old(activeStep) == 0 && !FormValid(formData))
                               || (old(activeStep) == 1 && !ImageReady())
                            then old(activeStep) else old(activeStep) + 1
      ensures errors == if old(activeStep) == 0 then FieldErrors(formData) else old(errors)
      ensures imageError == if old(activeStep) == 1 && !ImageReady() then "Please upload an image"
                            else old(imageError)
    {
      if activeStep == 0 {
        var ok := ValidateForm();
        if !ok {
          return;
        }
      }
      if activeStep == 1 {
        var ok := ValidateImage();
        if !ok {
          return;
        }
      }
      activeStep := activeStep + 1;
    }

    /** `handleBack` (the Back button is disabled on the first step). */
    method HandleBack()
      requires Valid() && activeStep != 0
      modifies this`activeStep
      ensures Valid() && activeStep == old(activeStep) - 1
    {
      activeStep := activeStep - 1;
    }

    /** `handleReset`: back to the first step with an empty form, no image and no errors. */
    method HandleReset()
      requires Valid()
      modifies this`activeStep, this`formData, this`imagePreview, this`imageFile, this`imageError,
               this`errors
      ensures Valid()
      ensures activeStep == 0 && formData == EmptyForm && imagePreview == None && imageFile == None
      ensures imageError == "" && errors == NoErrors
    {
      activeStep := 0;
      formData := EmptyForm;
      imagePreview := None;
      imageFile := None;
      imageError := "";
      errors := NoErrors;
    }

    /** `handleSave` on the last step, with the storage round trip as one step: `stored` is the
        current `menuItems` value and `now` the clock reading used as the id. The new item is
        appended to the catalog and put first in the recent panel; the success dialog opens and
        the form is reset. */
    method HandleSave(stored: Option<seq<MenuItem>>, now: nat) returns (newStored: Option<seq<MenuItem>>)
      requires Valid() && activeStep == StepCount - 1
      modifies this
      ensures Valid()
      ensures var item := NewItem(now, old(formData), old(imagePreview).value);
        && newStored == Some(StoredOrEmpty(stored) + [item])
        && recentlyAdded == PushRecent(old(recentlyAdded), item)
      ensures openSuccess
      ensures activeStep == 0 && formData == EmptyForm && imagePreview == None && imageFile == None
      ensures imageError == "" && errors == NoErrors
    {
      var existingItems := StoredOrEmpty(stored);
      var newItem := NewItem(now, formData, imagePreview.value);
      newStored := Some(existingItems + [newItem]);
      recentlyAdded := PushRecent(recentlyAdded, newItem);
      openSuccess := true;
      HandleReset();
    }

    method CloseSuccessDialog()
      requires Valid()
      modifies this`openSuccess
      ensures Valid() && !openSuccess
    {
      openSuccess := false;
    }

    /** The dialog's "Add Another Product": the dialog closes and the wizard returns to its first
        step. */
    method AddAnotherProduct()
      requires Valid()
      modifies this`openSuccess, this`activeStep
      ensures Valid() && !openSuccess && activeStep == 0
    {
      CloseSuccessDialog();
      activeStep := 0;
    }
  }
}
