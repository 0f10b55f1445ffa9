/** The shape of a queue item as the dashboards read it (`QueueItemResponse`). */
module QueueItems {
  import opened Wrappers

  datatype Examination = Examination(id: string, patientId: string, patientName: Option<string>)

  datatype Invoice = Invoice(invoiceId: string, patientId: string, totalAmount: int, status: string)

  datatype MedicalForm = MedicalForm(
    id: string,
    examination: Option<Examination>,
    invoice: Option<Invoice>,
    medicalFormStatus: string)

  datatype RequestedService = RequestedService(
    serviceId: string,
    name: string,
    departmentId: string,
    formTemplate: string)

  datatype QueueItem = QueueItem(
    queueItemId: string,
    medicalForm: Option<MedicalForm>,
    requestedService: Option<RequestedService>)

  /** `item.medicalForm?.examination?.id`. */
  function ExaminationId(item: QueueItem): (r: Option<string>)
    ensures r.Some? <==> item.medicalForm.Some? && item.medicalForm.value.examination.Some?
  {
    match item.medicalForm
    case Some(form) =>
      (match form.examination
       case Some(exam) => Some(exam.id)
       case None => None)
    case None => None
  }

  /** `item.requestedService?.serviceId`. */
  function RequestedServiceId(item: QueueItem): (r: Option<string>)
    ensures r.Some? <==> item.requestedService.Some?
  {
    match item.requestedService
    case Some(service) => Some(service.serviceId)
    case None => None
  }

  /** `item.medicalForm?.invoice?.invoiceId`. */
  function InvoiceId(item: QueueItem): (r: Option<string>)
    ensures r.Some? <==> item.medicalForm.Some? && item.medicalForm.value.invoice.Some?
  {
    match item.medicalForm
    case Some(form) =>
      (match form.invoice
       case Some(invoice) => Some(invoice.invoiceId)
       case None => None)
    case None => None
  }
}
