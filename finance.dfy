/**
 * The tuition-payment records shared by the student's payment page and the
 * lecturer's announcement page: a payment announcement, a student's payment
 * submission against it, and the colour its verification status is shown in.
 */
module Finance {
  import opened Common

  datatype Announcement = Announcement(
    id: int,
    title: string,
    description: string,
    amount: string,
    paymentDetails: string,
    dueDate: string,
    createdBy: int)

  /** A student's payment proof. `status` is free text on the wire. */
  datatype PaymentSubmission = PaymentSubmission(
    id: int,
    announcementId: int,
    studentId: int,
    paymentSlipUrl: string,
    amountPaid: string,
    paymentDate: string,
    notes: Option<string>,
    status: string,
    verificationNotes: Option<string>)

  /** The statuses the verification form offers, in the order it lists them. */
  const StatusOptions: seq<string> := ["pending", "verified", "rejected"]

  /**
   * The chip colour of a payment status: verified is green, rejected is red
   * and every other value, pending included, is amber.
   */
  function PaymentStatusColor(status: string): (c: ChipColor)
    ensures c == Success <==> status == "verified"
    ensures c == Error <==> status == "rejected"
    ensures c != Success && c != Error ==> c == Warning
  {
    match status
    case "verified" => Success
    case "rejected" => Error
    case _ => Warning
  }

  /** The three selectable statuses are told apart by colour. */
  lemma StatusOptionColorsDistinct(i: int, j: int)
    requires 0 <= i < j < |StatusOptions|
    ensures PaymentStatusColor(StatusOptions[i]) != PaymentStatusColor(StatusOptions[j])
  {
  }
}
