/**
 * The envelope every category operation is built on: a category tag, the
 * request, and an id drawn once at construction.
 */
module CoreAsync {
  import opened Wrappers

  /** An operation id. Only its identity matters here, not its 128-bit layout. */
  type Uuid = nat

  /**
   * Where fresh ids come from. `issued` is every id handed out so far; a
   * draw never repeats one of them.
   */
  class UuidSource {
    var next: nat
    ghost var issued: set<Uuid>

    ghost predicate Valid()
      reads this
    {
      forall id :: id in issued ==> id < next
    }

    constructor ()
      ensures Valid() && issued == {}
    {
      next := 0;
      issued := {};
    }

    /** `UUID.randomUUID()`, abstracted: an id not issued before, recorded as issued. */
    method RandomUuid() returns (id: Uuid)
      requires Valid()
      modifies this
      ensures Valid()
      ensures id !in old(issued) && issued == old(issued) + {id}
    {
      id := next;
      next := next + 1;
      issued := issued + {id};
    }
  }

  /**
   * A unit of work of some category, over a request of type R; the category
   * tag has type Category. All three fields are final.
   */
  class AmplifyOperation<R, Category> {
    const request: R
    const operationId: Uuid
    const categoryType: Category

    /**
     * Stores the tag and the request and draws a fresh id. The listener is
     * accepted and then dropped: nothing of it is kept.
     */
    constructor (categoryType: Category, request: R, eventListener: Option<object>, uuids: UuidSource)
      requires uuids.Valid()
      modifies uuids
      ensures GetCategoryType() == categoryType && GetRequest() == request
      ensures uuids.Valid()
      ensures GetOperationId() !in old(uuids.issued)
      ensures uuids.issued == old(uuids.issued) + {GetOperationId()}
    {
      this.categoryType := categoryType;
      this.request := request;
      var id := uuids.RandomUuid();
      this.operationId := id;
    }

    /** The two-argument form: the same as passing a null listener. */
    constructor WithoutListener(categoryType: Category, request: R, uuids: UuidSource)
      requires uuids.Valid()
      modifies uuids
      ensures GetCategoryType() == categoryType && GetRequest() == request
      ensures uuids.Valid()
      ensures GetOperationId() !in old(uuids.issued)
      ensures uuids.issued == old(uuids.issued) + {GetOperationId()}
    {
      this.categoryType := categoryType;
      this.request := request;
      var id := uuids.RandomUuid();
      this.operationId := id;
    }

    /** Does nothing: no field of the operation changes. */
    method Start()
      ensures unchanged(this)
    {
    }

    function GetRequest(): R { request }

    function GetOperationId(): Uuid { operationId }

    function GetCategoryType(): Category { categoryType }
  }

  /**
   * A client: two operations made from the same id source, one with a
   * listener and one without, carry what they were given and different ids,
   * and starting one changes none of that.
   */
  method TwoOperations<R, Category>(tag: Category, request1: R, request2: R, listener: object)
    returns (a: AmplifyOperation<R, Category>, b: AmplifyOperation<R, Category>)
    ensures a.GetRequest() == request1 && b.GetRequest() == request2
    ensures a.GetCategoryType() == tag && b.GetCategoryType() == tag
    ensures a.GetOperationId() != b.GetOperationId()
  {
    var uuids := new UuidSource();
    a := new AmplifyOperation(tag, request1, Some(listener), uuids);
    b := new AmplifyOperation.WithoutListener(tag, request2, uuids);
    a.Start();
  }
}
