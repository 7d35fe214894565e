/** The rows of the marketplace's tables (types/supabase.ts) and the literal
    status and role values the screens write and compare against. Server-side
    columns the screens never read (`created_at` except for projects,
    `updated_at`) are left out of the records. */
module Schema {
  import opened Common

  /** Row identifiers are server-generated strings. */
  type Id = string

  // Values of `profiles.role`.
  const Freelancer: string := "freelancer"
  const Employer: string := "employer"
  const Admin: string := "admin"

  // Status values of jobs, bids, projects, milestones and disputes.
  const Open: string := "open"
  const InProgress: string := "in_progress"
  const Pending: string := "pending"
  const Accepted: string := "accepted"
  const Approved: string := "approved"
  const Rejected: string := "rejected"
  const Completed: string := "completed"
  const Resolved: string := "resolved"

  // Account status values of the user-management page.
  const Active: string := "active"
  const Suspended: string := "suspended"

  /** The calendar month of a creation timestamp as `getFullYear()` and
      `getMonth()` report it (months counted from 0). */
  datatype Stamp = Stamp(year: int, monthIndex: int)

  datatype Profile = Profile(
    id: Id,
    fullName: Option<string>,
    role: string,
    skills: Option<seq<string>>,
    hourlyRate: Option<int>,
    portfolioUrl: Option<string>,
    companyName: Option<string>)

  datatype Job = Job(
    id: Id,
    employerId: Id,
    title: string,
    description: string,
    requiredSkills: seq<string>,
    budget: int,
    deadline: string,
    status: string)

  datatype Bid = Bid(
    id: Id,
    jobId: Id,
    freelancerId: Id,
    price: int,
    proposal: string,
    status: string)

  datatype Project = Project(
    id: Id,
    jobId: Id,
    employerId: Id,
    freelancerId: Id,
    amount: int,
    progress: int,
    status: string,
    created: Stamp)

  /** A project's price, the quantity every revenue and earnings figure adds up. */
  function Amount(p: Project): int
  {
    p.amount
  }

  datatype Message = Message(
    id: Id,
    projectId: Id,
    senderId: Id,
    content: string,
    fileUrl: Option<string>)

  datatype Milestone = Milestone(
    id: Id,
    projectId: Id,
    description: string,
    amount: int,
    status: string)

  datatype Dispute = Dispute(
    id: Id,
    projectId: Id,
    initiatorId: Id,
    reason: string,
    evidence: string,
    evidenceFiles: seq<string>,
    status: string,
    resolution: Option<string>)

  datatype Review = Review(
    id: Id,
    projectId: Id,
    reviewerId: Id,
    recipientId: Id,
    rating: int,
    review: string,
    reviewerRole: string)

  datatype Notification = Notification(
    id: Id,
    userId: Id,
    title: string,
    message: string,
    read: bool)

  /** A row of the user-management page: a profile joined with its sign-in account. */
  datatype Account = Account(
    id: Id,
    email: string,
    fullName: string,
    role: string,
    status: string)
}
