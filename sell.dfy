/** The "Sell Item" modal: item name, price and image, a submit handler that
    posts them as a multipart form, and a message line. The body is read before
    the status is looked at. */
module Sell {
  import opened Client

  /** The pre-flight guard `!itemName || !price || !image` and the request built
      when it passes: None when a field is empty or no file was picked. */
  function SellRequest(itemName: string, price: string, image: Option<Upload>): (r: Option<Request>)
    ensures r.None? <==> itemName == "" || price == "" || image.None?
    ensures r.Some? ==> r.value.SellItem? && r.value.itemName == itemName
                        && r.value.price == price && Some(r.value.image) == image
  {
    if itemName == "" || price == "" || image.None? then None
    else Some(SellItem(itemName, price, image.value))
  }

  const Listed := "Item listed successfully!"
  const ListFailed := "Failed to list item."
  const ListThrew := "Something went wrong."

  /** The close of the modal scheduled after the listing request has settled. */
  function CloseScheduled(outcome: FetchOutcome): (timers: seq<Timer>)
    ensures timers != [] <==> Is2xx(outcome) && Parses(outcome)
    ensures timers != [] ==> timers == [Timer(1500, CloseSellModal)]
  {
    if JsonThenOk(outcome) == Succeeded then [Timer(1500, CloseSellModal)] else []
  }

  /** A 2xx answer whose body is not JSON lands in `catch`: the generic message,
      and the modal stays open. */
  lemma UnparsableSuccessKeepsModalOpen()
    ensures BodyFirstFeedback(Responded(Response(true, NotJson)), Listed, ListFailed, ListThrew) == ListThrew
    ensures CloseScheduled(Responded(Response(true, NotJson))) == []
  {
  }

  /** A `null` body is a success on a 2xx answer, which never reads it, and a throw
      on a non-2xx one, which reads its `error` field. */
  lemma NullBody(ok: bool)
    ensures BodyFirstFeedback(Responded(Response(ok, Null)), Listed, ListFailed, ListThrew)
              == if ok then Listed else ListThrew
    ensures CloseScheduled(Responded(Response(ok, Null))) == if ok then [Timer(1500, CloseSellModal)] else []
  {
  }

  class SellModal {
    var itemName: string
    var price: string
    var image: Option<Upload>
    var message: string
    /** The timers scheduled so far; a close asks the parent page to hide the modal. */
    var timers: seq<Timer>

    constructor ()
      ensures itemName == "" && price == "" && image == None && message == "" && timers == []
    {
      itemName := "";
      price := "";
      image := None;
      message := "";
      timers := [];
    }

    method EditItemName(value: string)
      modifies this`itemName
      ensures itemName == value
    {
      itemName := value;
    }

    method EditPrice(value: string)
      modifies this`price
      ensures price == value
    {
      price := value;
    }

    /** The file input: `files[0]`, which is `undefined` when nothing was picked. */
    method PickImage(file: Option<Upload>)
      modifies this`image
      ensures image == file
    {
      image := file;
    }

    /** `handleSell`. It changes no state before its `await`, so it runs whole: a
        missing field sets the message and issues nothing; otherwise the request
        goes out and its outcome sets the message, and only a parsed 2xx answer
        schedules the close. */
    method HandleSell(outcome: FetchOutcome) returns (request: Option<Request>)
      modifies this`message, this`timers
      ensures request == SellRequest(itemName, price, image)
      ensures request.None? ==> message == "Please fill in all fields." && timers == old(timers)
      ensures request.Some? ==>
                message == BodyFirstFeedback(outcome, Listed, ListFailed, ListThrew)
                && timers == old(timers) + CloseScheduled(outcome)
    {
      request := SellRequest(itemName, price, image);
      if request.None? {
        message := "Please fill in all fields.";
        return;
      }
      message := BodyFirstFeedback(outcome, Listed, ListFailed, ListThrew);
      timers := timers + CloseScheduled(outcome);
    }
  }

  /** With no image picked, nothing is sent and the form asks for all fields. */
  method MissingImage(itemName: string, price: string, outcome: FetchOutcome)
    returns (request: Option<Request>, message: string)
    ensures request == None && message == "Please fill in all fields."
  {
    var modal := new SellModal();
    modal.EditItemName(itemName);
    modal.EditPrice(price);
    request := modal.HandleSell(outcome);
    message := modal.message;
  }
}
