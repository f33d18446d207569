/** The shapes of the demonstration data the admin and tourist dashboards
    read (`data/mockData` is not part of this model; its lists are taken as
    parameters). Status and role fields are strings and are compared in
    lower case, exactly as those dashboards write them. Dates are whole
    numbers on one time line. */
module MockData {
  import opened Common

  datatype MockUser = MockUser(id: string, name: string, email: string, role: string)

  datatype MockTour = MockTour(id: string, title: string, location: string, active: bool)

  datatype MockBooking = MockBooking(
    id: string,
    tourId: string,
    status: string,
    date: int,
    totalPrice: int,
    groupSize: int,
    tour: Option<MockTour>,
    tourist: Option<MockUser>,
    guide: Option<MockUser>)

  /** The per-booking actions a booking card can offer. */
  datatype CardAction = View | Cancel | WriteReview
}
