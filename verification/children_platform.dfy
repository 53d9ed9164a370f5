/** The children's platform: the class list (labelled and illustrated, or a
    single fallback class when loading fails), the age-group filter, the
    badge colours, and the class-booking guard. */
module ChildrenPlatform {
  import opened Wrappers
  import Text
  import Seqs
  import Catalog

  const RajImage := "https://images.unsplash.com/photo-1507003211169-0a1dd7228f2d?w=200&h=200&fit=crop&crop=face"
  const OtherImage := "https://images.unsplash.com/photo-1559839734-2b71ea197ec2?w=200&h=200&fit=crop&crop=face"

  /** A class as shown: the listed class (with its day relabelled) and the
      instructor's picture. */
  datatype Shown = Shown(item: Catalog.ClassItem, instructorImage: string)

  /** The class at position `i`: the first is labelled "Today", the second
      "Tomorrow", the rest keep their day; Uncle Raj gets his own picture. */
  function Enrich(c: Catalog.ClassItem, i: nat): (r: Shown)
    ensures r.item == c.(day := r.item.day)
    ensures r.item.day == (if i == 0 then "Today" else if i == 1 then "Tomorrow" else c.day)
    ensures r.instructorImage == (if c.instructor == "Uncle Raj" then RajImage else OtherImage)
  {
    Shown(c.(day := if i == 0 then "Today" else if i == 1 then "Tomorrow" else c.day),
          if c.instructor == "Uncle Raj" then RajImage else OtherImage)
  }

  function EnrichAll(cs: seq<Catalog.ClassItem>, from: nat): (r: seq<Shown>)
    ensures |r| == |cs|
    ensures forall i :: 0 <= i < |cs| ==> r[i] == Enrich(cs[i], from + i)
    decreases |cs|
  {
    if cs == [] then [] else [Enrich(cs[0], from)] + EnrichAll(cs[1..], from + 1)
  }

  /** The picture depends on the instructor alone. */
  lemma ImageByInstructor(a: Catalog.ClassItem, b: Catalog.ClassItem, i: nat, j: nat)
    requires a.instructor == b.instructor
    ensures Enrich(a, i).instructorImage == Enrich(b, j).instructorImage
  {
  }

  /** Past the second class, enrichment changes nothing but the picture. */
  lemma LaterClassesKeepTheirDay(cs: seq<Catalog.ClassItem>, i: nat)
    requires 2 <= i < |cs|
    ensures EnrichAll(cs, 0)[i].item == cs[i]
  {
    var e := Enrich(cs[i], i);
    assert EnrichAll(cs, 0)[i] == e;
    assert e.item.day == cs[i].day;
  }

  const FallbackClass := Catalog.ClassItem("fallback_1", "Brain Gym Morning Session", "Uncle Raj",
                                           "9:00 AM - 9:45 AM", "6-10 years", "Today", "Brain Gym", Some(500))

  datatype Board = Board(classes: seq<Shown>, connectionError: bool)

  /** `loadClasses`: `listed` is the response's `classes`, or `None` when
      the request fails or carries no list. */
  function LoadClasses(listed: Option<seq<Catalog.ClassItem>>): (r: Board)
    ensures r.connectionError <==> listed.None?
    ensures listed.None? ==> r.classes == [Shown(FallbackClass, RajImage)]
    ensures listed.Some? ==> |r.classes| == |listed.value|
                             && forall i :: 0 <= i < |listed.value| ==> r.classes[i] == Enrich(listed.value[i], i)
  {
    if listed.None? then Board([Shown(FallbackClass, RajImage)], true)
    else Board(EnrichAll(listed.value, 0), false)
  }

  /** The age-group tabs: "all" keeps every class; otherwise the classes
      whose age group contains the selection, in order. */
  function FilterByAge(classes: seq<Shown>, selected: string): (r: seq<Shown>)
    ensures selected == "all" ==> r == classes
    ensures selected != "all" ==> forall s :: s in r <==> s in classes && Text.Contains(s.item.ageGroup, selected)
    ensures selected != "all" ==>
              forall s :: multiset(r)[s] == (if Text.Contains(s.item.ageGroup, selected) then multiset(classes)[s] else 0)
    ensures Seqs.IsSubsequence(r, classes)
    ensures |r| <= |classes|
  {
    if selected == "all" then Seqs.SubsequenceOfSelf(classes); classes else AgeMatches(classes, selected)
  }

  function AgeMatches(classes: seq<Shown>, selected: string): (r: seq<Shown>)
    ensures forall s :: s in r <==> s in classes && Text.Contains(s.item.ageGroup, selected)
    ensures Seqs.IsSubsequence(r, classes)
    ensures forall s :: multiset(r)[s] == (if Text.Contains(s.item.ageGroup, selected) then multiset(classes)[s] else 0)
    ensures |r| <= |classes|
  {
    if classes == [] then []
    else
      var keep := Text.Contains(classes[0].item.ageGroup, selected);
      assert classes == [classes[0]] + classes[1..];
      Seqs.KeepOrDrop(classes[0], classes[1..], AgeMatches(classes[1..], selected), keep);
      (if keep then [classes[0]] else []) + AgeMatches(classes[1..], selected)
  }

  /** An age group always matches its own tab. */
  lemma {:induction false} OwnGroupKept(classes: seq<Shown>)
    requires forall i :: 0 <= i < |classes| ==> classes[i].item.ageGroup == "6-10 years"
    ensures AgeMatches(classes, "6-10 years") == classes
  {
    if classes != [] {
      Text.ContainsSelf(classes[0].item.ageGroup);
      OwnGroupKept(classes[1..]);
      assert classes == [classes[0]] + classes[1..];
    }
  }

  // ------------------------------------------------------------ colours

  const Gray := "bg-gray-100 text-gray-700"

  /** `getTypeColor`. */
  function TypeColor(classType: string): (r: string)
    ensures classType !in {"Brain Gym", "Meditation", "Wisdom"} ==> r == Gray
    ensures classType in {"Brain Gym", "Meditation", "Wisdom"} ==> r != Gray
  {
    if classType == "Brain Gym" then "bg-blue-100 text-blue-700"
    else if classType == "Meditation" then "bg-green-100 text-green-700"
    else if classType == "Wisdom" then "bg-purple-100 text-purple-700"
    else Gray
  }

  /** The three named types get three different colours. */
  lemma TypeColorsDistinct()
    ensures TypeColor("Brain Gym") != TypeColor("Meditation")
    ensures TypeColor("Meditation") != TypeColor("Wisdom")
    ensures TypeColor("Brain Gym") != TypeColor("Wisdom")
  {
  }

  const Palette: seq<string> := [
    "bg-red-100 text-red-700", "bg-blue-100 text-blue-700", "bg-green-100 text-green-700",
    "bg-yellow-100 text-yellow-700", "bg-purple-100 text-purple-700", "bg-pink-100 text-pink-700"
  ]

  /** `getVirtueColor`: the palette entry at the name's length mod 6. */
  function VirtueColor(virtue: string): (r: string)
    ensures r in Palette
  {
    Palette[|virtue| % |Palette|]
  }

  /** Names six characters apart in length share a colour; names of lengths
      0 to 5 get six different ones. */
  lemma VirtueColorCycle(a: string, b: string)
    ensures |a| % 6 == |b| % 6 ==> VirtueColor(a) == VirtueColor(b)
    ensures |a| < 6 && |b| < 6 && |a| != |b| ==> VirtueColor(a) != VirtueColor(b)
  {
  }

  // ------------------------------------------------------------ booking

  /** What booking a class leads to: the sign-in dialog, an alert with a
      message, or the payment dialog for the booked class. */
  datatype Outcome = AuthOpened | Alerted(message: string) | PaymentOpened(bookingId: string, selected: Catalog.ClassItem)

  /** The server's answer to `POST /classes/{id}/book`: the booking's id, or
      a thrown error's message. */
  datatype BookAnswer = ClassBooked(bookingId: string) | BookThrew(message: string)

  /** `handleClassBooking`, with the request's path (if one is sent). */
  function HandleClassBooking(c: Catalog.ClassItem, signedIn: bool, token: Option<string>, answer: BookAnswer)
    : (r: (Outcome, Option<string>))
    ensures !signedIn ==> r == (AuthOpened, None)
    ensures r.1.Some? <==> signedIn && token.Some? && token.value != ""
    ensures r.1.Some? ==> r.1.value == "/classes/" + c.id + "/book"
    ensures r.0.PaymentOpened? <==> r.1.Some? && answer.ClassBooked?
    ensures r.0.PaymentOpened? ==> r.0.selected == c && r.0.bookingId == answer.bookingId
    ensures signedIn && r.1.None? ==> r.0 == Alerted("Failed to book class: Authentication required - no access token")
    ensures r.1.Some? && answer.BookThrew? ==> r.0 == Alerted("Failed to book class: " + answer.message)
  {
    if !signedIn then (AuthOpened, None)
    else if token.None? || token.value == "" then
      (Alerted("Failed to book class: Authentication required - no access token"), None)
    else
      var path := "/classes/" + c.id + "/book";
      match answer
      case ClassBooked(id) => (PaymentOpened(id, c), Some(path))
      case BookThrew(msg) => (Alerted("Failed to book class: " + msg), Some(path))
  }

  /** The amount asked for: the class price, or 500 when it is missing or
      zero. */
  function PaymentAmount(c: Catalog.ClassItem): (amount: int)
    ensures c.price.Some? && c.price.value != 0 ==> amount == c.price.value
    ensures c.price.None? || c.price.value == 0 ==> amount == 500
    ensures amount != 0
  {
    if c.price.Some? && c.price.value != 0 then c.price.value else 500
  }

  /** The fallback class costs 500. */
  lemma FallbackAmount()
    ensures PaymentAmount(FallbackClass) == 500
    ensures PaymentAmount(FallbackClass.(price := None)) == 500
  {
  }

  /** Booking a class and paying go together: a signed-in booking the server
      accepts opens the payment dialog for that class, which then asks for
      the class's own non-zero price (500 without one), and an alert never
      asks for money. */
  lemma BookedClassIsCharged(c: Catalog.ClassItem, signedIn: bool, token: Option<string>, answer: BookAnswer)
    ensures var r := HandleClassBooking(c, signedIn, token, answer);
            r.0.PaymentOpened? <==> signedIn && token.Some? && token.value != "" && answer.ClassBooked?
    ensures var r := HandleClassBooking(c, signedIn, token, answer);
            r.0.PaymentOpened? ==>
              PaymentAmount(r.0.selected) == (if c.price.Some? && c.price.value != 0 then c.price.value else 500)
  {
  }
}
