/** The issue record shared by the list and map views. */
module Domain {
  import opened Wrappers

  /** One reported civic issue. Status and priority stay strings because
      the components compare raw strings and have default branches for
      values outside the known ones; `reportedDate` is a timestamp. */
  datatype Issue = Issue(
    id: int,
    title: string,
    description: string,
    category: string,
    status: string,
    priority: string,
    address: string,
    ward: string,
    reportedBy: string,
    reportedDate: int,
    assignedTo: Option<string>)
}
