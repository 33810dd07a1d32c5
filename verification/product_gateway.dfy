/** The remote product service the cart orchestration consumes
    (Interfaces/IProductService.cs). Its HTTP client is not part of this model:
    the service is an oracle whose answer may depend on every call it has seen. */
module ProductGateway {
  import opened Models
  import opened ServiceResults

  /** A request sent to the product service. */
  datatype GatewayCall =
    | CheckAvailability(productId: Guid)
    | Purchase(productId: Guid, quantity: int)
    | CancelPurchase(productId: Guid, quantity: int)

  /** The remote service's reply to a call, given the calls it received before. */
  type Oracle = (seq<GatewayCall>, GatewayCall) -> ServiceResult

  class ProductService {
    /** How the remote service behaves. */
    const answer: Oracle
    /** Every call issued so far, in order. */
    var log: seq<GatewayCall>

    constructor (answer: Oracle)
      ensures this.answer == answer && log == []
    {
      this.answer := answer;
      log := [];
    }

    /** Sends one call and returns the remote service's reply. */
    method Send(call: GatewayCall) returns (r: ServiceResult)
      modifies this
      ensures log == old(log) + [call]
      ensures r == answer(old(log), call)
    {
      r := answer(log, call);
      log := log + [call];
    }

    /** `CheckProductAvailabilityAsync` */
    method CheckProductAvailability(productId: Guid) returns (r: ServiceResult)
      modifies this
      ensures log == old(log) + [CheckAvailability(productId)]
      ensures r == answer(old(log), CheckAvailability(productId))
    {
      r := Send(CheckAvailability(productId));
    }

    /** `PurchaseProductAsync` */
    method PurchaseProduct(productId: Guid, quantity: int) returns (r: ServiceResult)
      modifies this
      ensures log == old(log) + [Purchase(productId, quantity)]
      ensures r == answer(old(log), Purchase(productId, quantity))
    {
      r := Send(Purchase(productId, quantity));
    }

    /** `CancelPurchaseAsync` */
    method CancelPurchase(productId: Guid, quantity: int) returns (r: ServiceResult)
      modifies this
      ensures log == old(log) + [GatewayCall.CancelPurchase(productId, quantity)]
      ensures r == answer(old(log), GatewayCall.CancelPurchase(productId, quantity))
    {
      r := Send(GatewayCall.CancelPurchase(productId, quantity));
    }
  }
}
