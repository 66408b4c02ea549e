/**
 * The booking form state the assistant reads (`bookingDetails`) and the two
 * form-completion checkers that report which required fields are still empty.
 * Every form value is a string; the empty string is the "not filled in" value.
 */
module Booking {
  import opened Text

  datatype TransportFields = TransportFields(kind: string, from: string, to: string, date: string, passengers: string)

  datatype AccommodationFields = AccommodationFields(
    kind: string, location: string, checkIn: string, checkOut: string, rooms: string, guests: string)

  datatype TourismFields = TourismFields(attraction: string, date: string, tickets: string)

  datatype BookingDetails = BookingDetails(
    transport: TransportFields, accommodation: AccommodationFields, tourism: TourismFields)

  /** The state every booking field starts in: all empty. */
  const EmptyBooking := BookingDetails(
    TransportFields("", "", "", "", ""),
    AccommodationFields("", "", "", "", "", ""),
    TourismFields("", "", ""))

  // ------------------------------------------------------------ form setters

  /** The transport inputs the page offers: the train/plane/bus buttons and four text inputs. */
  datatype TransportInput = Kind | From | To | Date | Passengers

  function TransportValue(t: TransportFields, f: TransportInput): string {
    match f
    case Kind => t.kind
    case From => t.from
    case To => t.to
    case Date => t.date
    case Passengers => t.passengers
  }

  /**
   * One `setBookingDetails({...bookingDetails, transport: {...transport, f: v}})`:
   * the chosen input takes the value, every other field of the booking keeps its own.
   */
  function SetTransportField(b: BookingDetails, f: TransportInput, v: string): (r: BookingDetails)
    ensures TransportValue(r.transport, f) == v
    ensures forall g :: g != f ==> TransportValue(r.transport, g) == TransportValue(b.transport, g)
    ensures r.accommodation == b.accommodation && r.tourism == b.tourism
  {
    var t := b.transport;
    var t' := match f
      case Kind => t.(kind := v)
      case From => t.(from := v)
      case To => t.(to := v)
      case Date => t.(date := v)
      case Passengers => t.(passengers := v);
    b.(transport := t')
  }

  // ---------------------------------------------------------- the checkers

  /** A field a checker looks at: the label it reports and the value it tests. */
  datatype CheckedField = CheckedField(name: string, value: string)

  function Labels(fields: seq<CheckedField>): seq<string> {
    seq(|fields|, i requires 0 <= i < |fields| => fields[i].name)
  }

  /** `xs` can be obtained from `ys` by deleting elements: same relative order. */
  predicate IsSubsequence(xs: seq<string>, ys: seq<string>)
    decreases |ys|
  {
    xs == [] ||
    (ys != [] && ((xs[0] == ys[0] && IsSubsequence(xs[1..], ys[1..])) || IsSubsequence(xs, ys[1..])))
  }

  /**
   * Walks the fields in order and collects the label of every field whose
   * value is empty (JavaScript's `!value`).
   */
  function Missing(fields: seq<CheckedField>): seq<string>
    decreases |fields|
  {
    if fields == [] then []
    else if fields[0].value == "" then [fields[0].name] + Missing(fields[1..])
    else Missing(fields[1..])
  }

  /**
   * A label is reported exactly when one of its fields is empty, the report
   * keeps the fields' order, and it is empty exactly when every field is filled.
   */
  lemma {:induction false} MissingReportsEmptyFields(fields: seq<CheckedField>)
    ensures forall l :: l in Missing(fields) <==> exists i :: 0 <= i < |fields| && fields[i].name == l && fields[i].value == ""
    ensures IsSubsequence(Missing(fields), Labels(fields))
    ensures Missing(fields) == [] <==> forall i :: 0 <= i < |fields| ==> fields[i].value != ""
    decreases |fields|
  {
    if fields != [] {
      MissingReportsEmptyFields(fields[1..]);
      assert Labels(fields)[1..] == Labels(fields[1..]);
      assert forall i :: 0 < i < |fields| ==> fields[i] == fields[1..][i - 1];
    }
  }

  const DepartureLabel := "departure location"
  const DestinationLabel := "destination"
  const TravelDateLabel := "travel date"
  const LocationLabel := "location"
  const CheckInLabel := "check-in date"

  /** What the transport checker inspects, in the order it reports: from, to, date. */
  function TransportChecks(t: TransportFields): seq<CheckedField> {
    [CheckedField(DepartureLabel, t.from), CheckedField(DestinationLabel, t.to), CheckedField(TravelDateLabel, t.date)]
  }

  /** What the accommodation checker inspects, in the order it reports: location, check-in. */
  function AccommodationChecks(a: AccommodationFields): seq<CheckedField> {
    [CheckedField(LocationLabel, a.location), CheckedField(CheckInLabel, a.checkIn)]
  }

  /** `getMissingTransportFields()`: the missing labels joined with ", ". */
  function MissingTransportFields(t: TransportFields): string {
    Join(Missing(TransportChecks(t)), ", ")
  }

  /** `getMissingAccommodationFields()`: the missing labels joined with ", ". */
  function MissingAccommodationFields(a: AccommodationFields): string {
    Join(Missing(AccommodationChecks(a)), ", ")
  }

  // ------------------------------------------------------------ properties

  /**
   * The transport checker reports each of its three labels exactly when that
   * field is empty, in the fixed order departure location, destination, travel date.
   */
  lemma TransportMissingLabels(t: TransportFields)
    ensures DepartureLabel in Missing(TransportChecks(t)) <==> t.from == ""
    ensures DestinationLabel in Missing(TransportChecks(t)) <==> t.to == ""
    ensures TravelDateLabel in Missing(TransportChecks(t)) <==> t.date == ""
    ensures IsSubsequence(Missing(TransportChecks(t)), [DepartureLabel, DestinationLabel, TravelDateLabel])
    ensures |Missing(TransportChecks(t))| <= 3
  {
    var fs := TransportChecks(t);
    MissingReportsEmptyFields(fs);
    assert fs[0].name == DepartureLabel && fs[1].name == DestinationLabel && fs[2].name == TravelDateLabel;
    assert Labels(fs) == [DepartureLabel, DestinationLabel, TravelDateLabel];
    assert |Missing(fs)| <= 3 by { SubsequenceLength(Missing(fs), Labels(fs)); }
  }

  /** The accommodation checker reports "location" then "check-in date", each exactly when empty. */
  lemma AccommodationMissingLabels(a: AccommodationFields)
    ensures LocationLabel in Missing(AccommodationChecks(a)) <==> a.location == ""
    ensures CheckInLabel in Missing(AccommodationChecks(a)) <==> a.checkIn == ""
    ensures IsSubsequence(Missing(AccommodationChecks(a)), [LocationLabel, CheckInLabel])
    ensures |Missing(AccommodationChecks(a))| <= 2
  {
    var fs := AccommodationChecks(a);
    MissingReportsEmptyFields(fs);
    assert fs[0].name == LocationLabel && fs[1].name == CheckInLabel;
    assert Labels(fs) == [LocationLabel, CheckInLabel];
    assert |Missing(fs)| <= 2 by { SubsequenceLength(Missing(fs), Labels(fs)); }
  }

  lemma {:induction false} SubsequenceLength(xs: seq<string>, ys: seq<string>)
    requires IsSubsequence(xs, ys)
    ensures |xs| <= |ys|
    decreases |ys|
  {
    if xs != [] {
      if xs[0] == ys[0] && IsSubsequence(xs[1..], ys[1..]) {
        SubsequenceLength(xs[1..], ys[1..]);
      } else {
        SubsequenceLength(xs, ys[1..]);
      }
    }
  }

  /** The checkers' labels contain no comma and are never empty. */
  lemma CheckLabelsWellFormed(fields: seq<CheckedField>)
    requires forall i :: 0 <= i < |fields| ==> fields[i].name != "" && ',' !in fields[i].name
    ensures forall k :: 0 <= k < |Missing(fields)| ==> Missing(fields)[k] != "" && ',' !in Missing(fields)[k]
  {
    MissingReportsEmptyFields(fields);
    forall k | 0 <= k < |Missing(fields)|
      ensures Missing(fields)[k] != "" && ',' !in Missing(fields)[k]
    {
      assert Missing(fields)[k] in Missing(fields);
    }
  }

  /** Every transport label is non-empty and free of commas. */
  lemma TransportChecksWellFormed(t: TransportFields)
    ensures forall i :: 0 <= i < |TransportChecks(t)| ==>
      TransportChecks(t)[i].name != "" && ',' !in TransportChecks(t)[i].name
  {
    assert ',' !in DepartureLabel && ',' !in DestinationLabel && ',' !in TravelDateLabel;
  }

  /** Every accommodation label is non-empty and free of commas. */
  lemma AccommodationChecksWellFormed(a: AccommodationFields)
    ensures forall i :: 0 <= i < |AccommodationChecks(a)| ==>
      AccommodationChecks(a)[i].name != "" && ',' !in AccommodationChecks(a)[i].name
  {
    assert ',' !in LocationLabel && ',' !in CheckInLabel;
  }

  /** The transport text is empty exactly when from, to and date are all filled in. */
  lemma MissingTransportTextEmpty(t: TransportFields)
    ensures MissingTransportFields(t) == "" <==> t.from != "" && t.to != "" && t.date != ""
  {
    var fs := TransportChecks(t);
    assert Missing(fs) == [] <==> t.from != "" && t.to != "" && t.date != "" by {
      MissingReportsEmptyFields(fs);
      assert fs[0].value == t.from && fs[1].value == t.to && fs[2].value == t.date;
    }
    assert MissingTransportFields(t) == "" <==> Missing(fs) == [] by {
      TransportChecksWellFormed(t);
      CheckLabelsWellFormed(fs);
      JoinEmptyIff(Missing(fs), ", ");
    }
  }

  /** A non-empty transport report loses nothing in the comma-joined text: it splits back into the labels. */
  lemma MissingTransportTextSplits(t: TransportFields)
    ensures Missing(TransportChecks(t)) != [] ==>
      SplitJoined(MissingTransportFields(t)) == Missing(TransportChecks(t))
  {
    var fs := TransportChecks(t);
    TransportChecksWellFormed(t);
    CheckLabelsWellFormed(fs);
    if Missing(fs) != [] {
      SplitJoinRoundTrip(Missing(fs));
    }
  }

  /** The transport type and the passenger count never influence the transport text. */
  lemma MissingTransportTextIgnores(t: TransportFields, kind: string, passengers: string)
    ensures MissingTransportFields(t.(kind := kind, passengers := passengers)) == MissingTransportFields(t)
  {
  }

  /** The accommodation text is empty exactly when location and check-in are filled in. */
  lemma MissingAccommodationTextEmpty(a: AccommodationFields)
    ensures MissingAccommodationFields(a) == "" <==> a.location != "" && a.checkIn != ""
  {
    var fs := AccommodationChecks(a);
    assert Missing(fs) == [] <==> a.location != "" && a.checkIn != "" by {
      MissingReportsEmptyFields(fs);
      assert fs[0].value == a.location && fs[1].value == a.checkIn;
    }
    assert MissingAccommodationFields(a) == "" <==> Missing(fs) == [] by {
      AccommodationChecksWellFormed(a);
      CheckLabelsWellFormed(fs);
      JoinEmptyIff(Missing(fs), ", ");
    }
  }

  /** A non-empty accommodation report splits back into the labels. */
  lemma MissingAccommodationTextSplits(a: AccommodationFields)
    ensures Missing(AccommodationChecks(a)) != [] ==>
      SplitJoined(MissingAccommodationFields(a)) == Missing(AccommodationChecks(a))
  {
    var fs := AccommodationChecks(a);
    AccommodationChecksWellFormed(a);
    CheckLabelsWellFormed(fs);
    if Missing(fs) != [] {
      SplitJoinRoundTrip(Missing(fs));
    }
  }

  /** Type, check-out, rooms and guests never influence the accommodation text. */
  lemma MissingAccommodationTextIgnores(a: AccommodationFields, kind: string, checkOut: string, rooms: string, guests: string)
    ensures MissingAccommodationFields(a.(kind := kind, checkOut := checkOut, rooms := rooms, guests := guests))
         == MissingAccommodationFields(a)
  {
  }

  /** Departure and date empty, destination "Paris": the two labels, in order, comma-joined. */
  lemma MissingTransportExample(t: TransportFields)
    requires t.from == "" && t.to == "Paris" && t.date == ""
    ensures Missing(TransportChecks(t)) == [DepartureLabel, TravelDateLabel]
    ensures MissingTransportFields(t) == "departure location, travel date"
  {
    var fs := TransportChecks(t);
    assert fs[1..][1..][1..] == [];
    assert Missing(fs[1..][1..]) == [TravelDateLabel];
    var found := [DepartureLabel, TravelDateLabel];
    assert found[1..] == [TravelDateLabel];
    assert Join(found, ", ") == DepartureLabel + ", " + TravelDateLabel;
  }
}
