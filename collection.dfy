/** The `/collection` response (src/collection.rs): a document holding
    `<errors>` is an error report, classified as an unknown user or an API
    error; any other document is the list of owned items. The deserialiser
    is foreign code and appears as an oracle. */
module Collection {
  import opened Errors
  import opened Text

  /** One owned game: its object id and name. (`Item` in the source.) */
  datatype CollectionItem = CollectionItem(id: u32, name: string)

  /** One `<error><message>..</message></error>` of an error report. */
  datatype ErrorResponse = ErrorResponse(message: string)

  /** The deserialiser, for each of the two document shapes. */
  datatype CollectionXml = CollectionXml(errors: string -> Decoded<seq<ErrorResponse>>,
                                         items: string -> Decoded<seq<CollectionItem>>)

  const ERRORS_TAG := "<errors>"
  const INVALID_USERNAME := "Invalid username specified"
  const DESERIALIZE_ERROR := "Error deserializing xml: "
  const MESSAGE_SEPARATOR := ", "

  /** `serde_xml`: a deserialiser failure becomes an `XmlError` carrying its text. */
  function Deserialized<T>(d: Decoded<T>): (r: Result<T>)
    ensures r.Ok? <==> d.Parsed?
    ensures d.Parsed? ==> r.value == d.value
    ensures d.Malformed? ==> r.error == XmlError(DESERIALIZE_ERROR + d.reason)
  {
    match d
    case Parsed(v) => Ok(v)
    case Malformed(reason) => Err(XmlError(DESERIALIZE_ERROR + reason))
  }

  /** The messages of an error report, in order. */
  function Messages(errors: seq<ErrorResponse>): (ms: seq<string>)
    ensures |ms| == |errors| && forall i :: 0 <= i < |errors| ==> ms[i] == errors[i].message
  {
    if errors == [] then [] else Messages(errors[..|errors| - 1]) + [errors[|errors| - 1].message]
  }

  /** The classification of an error report. */
  function Classify(errors: seq<ErrorResponse>): Error
  {
    if |errors| == 1 && errors[0].message == INVALID_USERNAME then InvalidUserError
    else XmlApiError(Join(Messages(errors), MESSAGE_SEPARATOR))
  }

  /** `from_xml`. */
  function FromXml(xml: string, x: CollectionXml): (r: Result<seq<CollectionItem>>)
    ensures Contains(xml, ERRORS_TAG) ==> r.Err?
    ensures Contains(xml, ERRORS_TAG) && x.errors(xml).Malformed? ==>
              r == Err(XmlError(DESERIALIZE_ERROR + x.errors(xml).reason))
    ensures !Contains(xml, ERRORS_TAG) ==> r == Deserialized(x.items(xml))
  {
    if Contains(xml, ERRORS_TAG) then
      match Deserialized(x.errors(xml))
      case Err(e) => Err(e)
      case Ok(errors) => Err(Classify(errors))
    else
      Deserialized(x.items(xml))
  }

  /** The unknown-user error arises exactly from a report holding one error
      whose message is the invalid-username text. */
  lemma InvalidUserIff(xml: string, x: CollectionXml)
    ensures FromXml(xml, x) == Err(InvalidUserError) <==>
              Contains(xml, ERRORS_TAG) && x.errors(xml) == Parsed([ErrorResponse(INVALID_USERNAME)])
  {
    if Contains(xml, ERRORS_TAG) && x.errors(xml).Parsed? {
      var errors := x.errors(xml).value;
      if |errors| == 1 && errors[0].message == INVALID_USERNAME {
        assert errors == [ErrorResponse(INVALID_USERNAME)];
      }
    }
  }

  /** Every report other than the single invalid-username one is an API
      error whose text is the report's messages joined by ", ": a single
      other message, an empty report, and several errors among which the
      invalid-username message occurs alike. */
  lemma OtherReportsAreApiErrors(xml: string, x: CollectionXml)
    requires Contains(xml, ERRORS_TAG) && x.errors(xml).Parsed?
    requires !(|x.errors(xml).value| == 1 && x.errors(xml).value[0].message == INVALID_USERNAME)
    ensures FromXml(xml, x) == Err(XmlApiError(Join(Messages(x.errors(xml).value), MESSAGE_SEPARATOR)))
  {
  }

  /** An empty report is an API error with an empty text. */
  lemma EmptyReportIsApiError(xml: string, x: CollectionXml)
    requires Contains(xml, ERRORS_TAG) && x.errors(xml) == Parsed([])
    ensures FromXml(xml, x) == Err(XmlApiError(""))
  {
  }

  /** A report of one message other than the invalid-username one is an API
      error with exactly that message. */
  lemma SingleOtherErrorIsApiError(xml: string, x: CollectionXml, message: string)
    requires Contains(xml, ERRORS_TAG) && x.errors(xml) == Parsed([ErrorResponse(message)])
    requires message != INVALID_USERNAME
    ensures FromXml(xml, x) == Err(XmlApiError(message))
  {
  }

  /** Every message of a report appears in the joined API error text. */
  lemma {:induction false} JoinKeepsMessages(ms: seq<string>, sep: string, i: nat)
    requires i < |ms|
    ensures Contains(Join(ms, sep), ms[i])
  {
    var n := |ms|;
    if n == 1 {
      ContainsIffOccurs(Join(ms, sep), ms[i]);
      assert OccursAt(Join(ms, sep), ms[i], 0);
    } else {
      var init := ms[..n - 1];
      var left := Join(init, sep);
      var whole := Join(ms, sep);
      assert whole == left + sep + ms[n - 1];
      ContainsIffOccurs(whole, ms[i]);
      if i < n - 1 {
        JoinKeepsMessages(init, sep, i);
        ContainsIffOccurs(left, ms[i]);
        var k :| OccursAt(left, init[i], k);
        assert whole[k..k + |ms[i]|] == left[k..k + |ms[i]|];
        assert OccursAt(whole, ms[i], k);
      } else {
        var k := |left| + |sep|;
        assert whole[k..k + |ms[i]|] == ms[n - 1];
        assert OccursAt(whole, ms[i], k);
      }
    }
  }

  /** An API error report loses no message. */
  lemma ApiErrorKeepsMessages(xml: string, x: CollectionXml)
    requires FromXml(xml, x).Err? && FromXml(xml, x).error.XmlApiError?
    ensures Contains(xml, ERRORS_TAG) && x.errors(xml).Parsed?
    ensures forall i :: 0 <= i < |x.errors(xml).value| ==>
              Contains(FromXml(xml, x).error.message, x.errors(xml).value[i].message)
  {
    var ms := Messages(x.errors(xml).value);
    forall i | 0 <= i < |x.errors(xml).value|
      ensures Contains(FromXml(xml, x).error.message, x.errors(xml).value[i].message)
    {
      JoinKeepsMessages(ms, MESSAGE_SEPARATOR, i);
    }
  }

  /** The report of the unknown-errors fixture is rendered as its three
      messages in order. */
  lemma UnknownErrorsFixture(xml: string, x: CollectionXml)
    requires Contains(xml, ERRORS_TAG)
    requires x.errors(xml) == Parsed([ErrorResponse("I don't like your name"), ErrorResponse("I don't like your face"),
                                      ErrorResponse("I don't like you")])
    ensures FromXml(xml, x) == Err(XmlApiError("I don't like your name" + ", " + "I don't like your face" + ", "
                                               + "I don't like you"))
  {
    var ms := Messages(x.errors(xml).value);
    assert ms == ["I don't like your name", "I don't like your face", "I don't like you"];
    assert ms[..2][..1] == ms[..1];
    assert Join(ms[..1], MESSAGE_SEPARATOR) == ms[0];
    assert Join(ms[..2], MESSAGE_SEPARATOR) == ms[0] + MESSAGE_SEPARATOR + ms[1];
    assert ms[..3] == ms;
    assert Join(ms, MESSAGE_SEPARATOR) == ms[0] + MESSAGE_SEPARATOR + ms[1] + MESSAGE_SEPARATOR + ms[2];
    assert Classify(x.errors(xml).value) == XmlApiError(Join(ms, MESSAGE_SEPARATOR));
  }
}
