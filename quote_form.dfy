/**
 * The public quote-request form: four text fields checked by a validation
 * schema, a list of picked photos, and the multipart body posted when the
 * form is valid.
 */
module QuoteForm {
  import opened Common
  import opened Text

  /** A photo picked in the upload area (a browser file handle). */
  datatype Upload = Upload(fileName: string)

  datatype QuoteValues = QuoteValues(
    name: string,
    phone: string,
    carModel: string,
    description: string,
    images: seq<Upload>)

  const InitialValues := QuoteValues("", "", "", "", [])

  // ---------------------------------------------------------------- validation

  /** The error shown under each field, if any. */
  datatype FieldErrors = FieldErrors(
    name: Option<string>,
    phone: Option<string>,
    carModel: Option<string>,
    description: Option<string>)

  /** A required text field: empty is reported as "Required". */
  function RequiredError(s: string): (r: Option<string>)
    ensures r.Some? <==> s == ""
    ensures r.Some? ==> r.value == "Required"
  {
    if s == "" then Some("Required") else None
  }

  /** The phone: empty is "Required", anything but ASCII digits is "Must be numbers only"; the first failing rule is reported. */
  function PhoneError(s: string): (r: Option<string>)
    ensures r.None? <==> s != "" && forall i :: 0 <= i < |s| ==> IsDigit(s[i])
    ensures s == "" ==> r == Some("Required")
  {
    AllDigitsMeans(s);
    if s == "" then Some("Required")
    else if !MatchesDigitsOnly(s) then Some("Must be numbers only")
    else None
  }

  /** The schema; `images` has no rule. */
  function Validate(v: QuoteValues): (r: FieldErrors)
    ensures r.name.None? <==> v.name != ""
    ensures r.carModel.None? <==> v.carModel != ""
    ensures r.description.None? <==> v.description != ""
    ensures r.phone.None? <==> v.phone != "" && forall i :: 0 <= i < |v.phone| ==> IsDigit(v.phone[i])
  {
    FieldErrors(RequiredError(v.name), PhoneError(v.phone), RequiredError(v.carModel), RequiredError(v.description))
  }

  predicate IsValid(v: QuoteValues)
  {
    Validate(v) == FieldErrors(None, None, None, None)
  }

  /** The form is valid exactly when the four fields are non-empty and the phone is all ASCII digits. */
  lemma ValidIff(v: QuoteValues)
    ensures IsValid(v) <==>
      && v.name != "" && v.phone != "" && v.carModel != "" && v.description != ""
      && forall i :: 0 <= i < |v.phone| ==> IsDigit(v.phone[i])
  {
    AllDigitsMeans(v.phone);
  }

  /** A non-empty phone with any character outside 0-9 is rejected with "Must be numbers only". */
  lemma NonDigitPhoneRejected(v: QuoteValues, i: nat)
    requires i < |v.phone| && !IsDigit(v.phone[i])
    ensures Validate(v).phone == Some("Must be numbers only")
  {
    AllDigitsMeans(v.phone);
  }

  /** An empty field is rejected with "Required". */
  lemma EmptyFieldsRequired(v: QuoteValues)
    ensures v.name == "" ==> Validate(v).name == Some("Required")
    ensures v.phone == "" ==> Validate(v).phone == Some("Required")
    ensures v.carModel == "" ==> Validate(v).carModel == Some("Required")
    ensures v.description == "" ==> Validate(v).description == Some("Required")
  {
  }

  /** The photos play no part in validation. */
  lemma ImagesNotValidated(v: QuoteValues, imgs: seq<Upload>)
    ensures Validate(v.(images := imgs)) == Validate(v)
  {
  }

  lemma InitialValuesInvalid()
    ensures !IsValid(InitialValues)
  {
  }

  // ---------------------------------------------------------------- the multipart body

  datatype EntryValue = TextValue(text: string) | FileValue(file: Upload)

  /** One appended key and value of the multipart body. */
  datatype Entry = Entry(key: string, value: EntryValue)

  function TextEntries(v: QuoteValues): (r: seq<Entry>)
    ensures |r| == 4
  {
    [ Entry("name", TextValue(v.name)),
      Entry("phone", TextValue(v.phone)),
      Entry("carModel", TextValue(v.carModel)),
      Entry("description", TextValue(v.description)) ]
  }

  function ImageEntries(imgs: seq<Upload>): (r: seq<Entry>)
    ensures |r| == |imgs|
    ensures forall i :: 0 <= i < |imgs| ==> r[i] == Entry("images", FileValue(imgs[i]))
  {
    if imgs == [] then [] else [Entry("images", FileValue(imgs[0]))] + ImageEntries(imgs[1..])
  }

  /** The body: the four text fields in order, then one "images" entry per photo, in order. */
  function FormBody(v: QuoteValues): (r: seq<Entry>)
    ensures |r| == 4 + |v.images|
    ensures forall i :: 0 <= i < |v.images| ==> r[4 + i] == Entry("images", FileValue(v.images[i]))
  {
    TextEntries(v) + ImageEntries(v.images)
  }

  /** `onSubmit`'s successive `append` calls, the photos by a `forEach`. */
  method BuildFormData(v: QuoteValues) returns (body: seq<Entry>)
    ensures body == FormBody(v)
  {
    body := [];
    body := body + [Entry("name", TextValue(v.name))];
    body := body + [Entry("phone", TextValue(v.phone))];
    body := body + [Entry("carModel", TextValue(v.carModel))];
    body := body + [Entry("description", TextValue(v.description))];
    for i := 0 to |v.images|
      invariant |body| == 4 + i
      invariant body[..4] == TextEntries(v)
      invariant forall j :: 0 <= j < i ==> body[4 + j] == Entry("images", FileValue(v.images[j]))
    {
      body := body + [Entry("images", FileValue(v.images[i]))];
    }
    assert body == TextEntries(v) + ImageEntries(v.images);
  }

  /** Reading a body back: the four text fields by position, then the photos. */
  function ReadBody(body: seq<Entry>): Option<QuoteValues>
  {
    if |body| < 4 then None
    else if body[0].key != "name" || !body[0].value.TextValue? then None
    else if body[1].key != "phone" || !body[1].value.TextValue? then None
    else if body[2].key != "carModel" || !body[2].value.TextValue? then None
    else if body[3].key != "description" || !body[3].value.TextValue? then None
    else
      match ReadImages(body[4..])
      case None => None
      case Some(imgs) =>
        Some(QuoteValues(body[0].value.text, body[1].value.text, body[2].value.text, body[3].value.text, imgs))
  }

  function ReadImages(entries: seq<Entry>): Option<seq<Upload>>
  {
    if entries == [] then Some([])
    else if entries[0].key != "images" || !entries[0].value.FileValue? then None
    else
      match ReadImages(entries[1..])
      case None => None
      case Some(rest) => Some([entries[0].value.file] + rest)
  }

  lemma {:induction false} ReadImagesRoundTrip(imgs: seq<Upload>)
    ensures ReadImages(ImageEntries(imgs)) == Some(imgs)
    decreases |imgs|
  {
    if imgs != [] {
      var e := ImageEntries(imgs);
      assert e[1..] == ImageEntries(imgs[1..]);
      ReadImagesRoundTrip(imgs[1..]);
      assert [imgs[0]] + imgs[1..] == imgs;
    }
  }

  /** The body carries every value of the form, photos in their original order, and nothing else. */
  lemma FormBodyRoundTrip(v: QuoteValues)
    ensures ReadBody(FormBody(v)) == Some(v)
  {
    var body := FormBody(v);
    assert body[4..] == ImageEntries(v.images);
    ReadImagesRoundTrip(v.images);
  }

  // ---------------------------------------------------------------- the form's state

  class QuoteFormState {
    var values: QuoteValues

    constructor ()
      ensures values == InitialValues
    {
      values := InitialValues;
    }

    /** `handleChange` on the name input. */
    method SetName(s: string)
      modifies this
      ensures values == old(values).(name := s)
    {
      values := values.(name := s);
    }

    method SetPhone(s: string)
      modifies this
      ensures values == old(values).(phone := s)
    {
      values := values.(phone := s);
    }

    method SetCarModel(s: string)
      modifies this
      ensures values == old(values).(carModel := s)
    {
      values := values.(carModel := s);
    }

    method SetDescription(s: string)
      modifies this
      ensures values == old(values).(description := s)
    {
      values := values.(description := s);
    }

    /** The upload area replaces the photos with the accepted files. */
    method SetImages(files: seq<Upload>)
      modifies this
      ensures values == old(values).(images := files)
    {
      values := values.(images := files);
    }

    /**
     * Submitting: nothing is sent while the schema reports an error;
     * otherwise the body is posted (`postOk` is whether the POST resolved),
     * and the form is reset only on success. The returned text is the alert.
     */
    method Submit(postOk: bool) returns (sent: Option<seq<Entry>>, alert: Option<string>)
      modifies this
      ensures !IsValid(old(values)) ==> sent.None? && alert.None? && values == old(values)
      ensures IsValid(old(values)) ==> sent == Some(FormBody(old(values)))
      ensures IsValid(old(values)) && postOk ==>
        values == InitialValues && alert == Some("Quote request submitted successfully!")
      ensures IsValid(old(values)) && !postOk ==>
        values == old(values) && alert == Some("Error submitting quote")
    {
      if !IsValid(values) {
        return None, None;
      }
      var body := BuildFormData(values);
      sent := Some(body);
      if postOk {
        alert := Some("Quote request submitted successfully!");
        values := InitialValues;
      } else {
        alert := Some("Error submitting quote");
      }
    }
  }
}
