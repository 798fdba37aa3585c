/** The records of `types.ts`: donations, event updates, the schedule and the
    application state the pages share. */
module Types {
  import opened Wrappers

  datatype EventStatus = Upcoming | Ongoing | Completed

  datatype EventUpdate = EventUpdate(
    id: string,
    title: string,
    description: string,
    imageUrl: Option<string>,
    timestamp: string)

  datatype Ritual = Ritual(time: string, title: string, description: string)

  datatype ScheduleItem = ScheduleItem(id: string, day: string, date: string, rituals: seq<Ritual>)

  datatype DonationStatus = Success | Pending | Failed

  /** A donation as the pages hold it. `transactionId` is the human-readable display id,
      `passId` the random identifier the pass's QR code carries, `receiptId` the
      sequential number (absent in some legacy records). `paymentMethod` is kept as the
      text the store holds. */
  datatype Donation = Donation(
    id: string,
    donorName: string,
    amount: int,
    purpose: Option<string>,
    timestamp: string,
    transactionId: string,
    passId: string,
    receiptId: Option<int>,
    paymentMethod: string,
    status: DonationStatus)

  datatype EventInfo = EventInfo(
    title: string,
    location: string,
    startDate: string,
    endDate: string,
    status: EventStatus,
    significance: string)

  datatype AppState = AppState(
    updates: seq<EventUpdate>,
    schedule: seq<ScheduleItem>,
    donations: seq<Donation>,
    eventInfo: EventInfo)
}
