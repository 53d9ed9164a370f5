/** Record shapes that travel between the mock store, the edge server and
    the screens that display them. */
module Catalog {
  import opened Wrappers

  /** A children's class offering. `price` is absent when the record has none. */
  datatype ClassItem = ClassItem(
    id: string,
    title: string,
    instructor: string,
    time: string,
    ageGroup: string,
    day: string,
    classType: string,
    price: Option<int>)

  /** A doctor session as listed for a doctor (mock listing). */
  datatype SessionListing = SessionListing(
    id: string,
    userId: string,
    sessionType: string,
    sessionDate: string,
    sessionTime: string,
    status: string)
}
