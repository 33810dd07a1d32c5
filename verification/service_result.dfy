/** The result envelope every cart and order operation returns
    (Models/ServiceResult.cs). */
module ServiceResults {
  import opened Models

  /** The untyped `Data` payload, restricted to the values the core puts in it. */
  datatype Payload =
    | NoData
    | AvailabilityData(info: AvailabilityInfo)
    | ReceiptData(receipt: PurchaseReceipt)
    | OrderData(order: Order)

  datatype ServiceResult = ServiceResult(success: bool, message: string, data: Payload)

  /** `ServiceResult.Ok`: a success carrying exactly the given message and
      data, which default to "Operation successful" and null. */
  function Ok(message: string := "Operation successful", data: Payload := NoData): (r: ServiceResult)
    ensures r.success
    ensures r.message == message && r.data == data
  {
    ServiceResult(true, message, data)
  }

  /** `ServiceResult.Fail`: a failure with the given message and no data. */
  function Fail(message: string): (r: ServiceResult)
    ensures !r.success
    ensures r.message == message && r.data == NoData
  {
    ServiceResult(false, message, NoData)
  }

  /** `Data as AvailabilityInfo`: null unless the payload is availability information. */
  function AsAvailability(data: Payload): (r: Option<AvailabilityInfo>)
    ensures r.Some? <==> data.AvailabilityData?
    ensures r.Some? ==> r.value == data.info
  {
    if data.AvailabilityData? then Some(data.info) else None
  }

  /** `Data as PurchaseResponseDto`: null unless the payload is a purchase receipt. */
  function AsReceipt(data: Payload): (r: Option<PurchaseReceipt>)
    ensures r.Some? <==> data.ReceiptData?
    ensures r.Some? ==> r.value == data.receipt
  {
    if data.ReceiptData? then Some(data.receipt) else None
  }
}
