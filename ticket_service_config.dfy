/**
 * The ticket service's configuration: three ticket prices and the maximum
 * number of tickets per order, checked once when the object is built and
 * read-only afterwards.
 */
module ServiceConfig {
  import opened Wrappers

  /**
   * What a caller can pass for one constructor parameter: nothing at all
   * (`undefined`, which selects the parameter's default), a value that
   * `Number.isInteger` accepts, or anything else (a fractional number, NaN,
   * a string, `null`, ...).
   */
  datatype Arg = Missing | Int(value: int) | NonInteger

  /** The error thrown by a failed construction: a `TypeError` and its message. */
  datatype TypeError = TypeError(message: string)

  const DefaultAdultTicketPrice: nat := 20
  const DefaultChildTicketPrice: nat := 10
  const DefaultInfantTicketPrice: nat := 0
  const DefaultMaxTicketsPerOrder: nat := 20

  const AdultPriceMessage := "adultTicketPrice must be a non-negative integer"
  const ChildPriceMessage := "childTicketPrice must be a non-negative integer"
  const InfantPriceMessage := "infantTicketPrice must be a non-negative integer"
  /** The check on maxTicketsPerOrder reports the infant-price message, word for word. */
  const MaxTicketsMessage := InfantPriceMessage

  /** A default parameter value replaces a missing argument and nothing else. */
  function WithDefault(a: Arg, default: nat): Arg
  {
    if a.Missing? then Int(default) else a
  }

  /** The condition each of the four guards demands: `Number.isInteger(x) && x >= 0`. */
  predicate IsNonNegativeInteger(a: Arg)
  {
    a.Int? && a.value >= 0
  }

  /** One guard: the (defaulted) argument it inspects and the message it throws. */
  datatype Check = Check(arg: Arg, message: string)

  /** The four guards of the constructor, in the order they run. */
  function Checks(adult: Arg, child: Arg, infant: Arg, maxTickets: Arg): seq<Check>
  {
    [ Check(WithDefault(adult, DefaultAdultTicketPrice), AdultPriceMessage),
      Check(WithDefault(child, DefaultChildTicketPrice), ChildPriceMessage),
      Check(WithDefault(infant, DefaultInfantTicketPrice), InfantPriceMessage),
      Check(WithDefault(maxTickets, DefaultMaxTicketsPerOrder), MaxTicketsMessage) ]
  }

  /**
   * The position of the first guard that fails, scanning in order; `None`
   * when every guard passes.
   */
  function FirstInvalid(checks: seq<Check>): (r: Option<nat>)
    ensures r.None? <==> forall i :: 0 <= i < |checks| ==> IsNonNegativeInteger(checks[i].arg)
    ensures r.Some? ==> r.value < |checks| && !IsNonNegativeInteger(checks[r.value].arg)
    ensures r.Some? ==> forall j :: 0 <= j < r.value ==> IsNonNegativeInteger(checks[j].arg)
  {
    if |checks| == 0 then None
    else if !IsNonNegativeInteger(checks[0].arg) then Some(0)
    else match FirstInvalid(checks[1..])
      case None => None
      case Some(k) => Some(k + 1)
  }

  /**
   * Guards that pass do not change which later guard is reported: after a
   * run of passing guards, the report is the first failure among the rest,
   * shifted past them.
   */
  lemma {:induction false} PassingGuardsShiftTheReport(passed: seq<Check>, rest: seq<Check>)
    requires forall j :: 0 <= j < |passed| ==> IsNonNegativeInteger(passed[j].arg)
    ensures FirstInvalid(passed + rest) ==
      match FirstInvalid(rest)
      case None => None
      case Some(k) => Some(|passed| + k)
  {
    if passed == [] {
      assert passed + rest == rest;
    } else {
      assert (passed + rest)[0] == passed[0];
      assert (passed + rest)[1..] == passed[1..] + rest;
      PassingGuardsShiftTheReport(passed[1..], rest);
    }
  }

  /** The four values a successfully built configuration holds. */
  datatype Settings = Settings(
    adultTicketPrice: nat,
    childTicketPrice: nat,
    infantTicketPrice: nat,
    maxTicketsPerOrder: nat)

  /**
   * What construction produces: the message of the first failing guard, or
   * the four defaulted arguments.
   */
  function Validated(adult: Arg, child: Arg, infant: Arg, maxTickets: Arg): (r: Result<Settings, TypeError>)
    ensures r.Success? <==>
      && IsNonNegativeInteger(WithDefault(adult, DefaultAdultTicketPrice))
      && IsNonNegativeInteger(WithDefault(child, DefaultChildTicketPrice))
      && IsNonNegativeInteger(WithDefault(infant, DefaultInfantTicketPrice))
      && IsNonNegativeInteger(WithDefault(maxTickets, DefaultMaxTicketsPerOrder))
  {
    var checks := Checks(adult, child, infant, maxTickets);
    match FirstInvalid(checks)
    case Some(k) => Failure(TypeError(checks[k].message))
    case None =>
      Success(Settings(checks[0].arg.value, checks[1].arg.value, checks[2].arg.value, checks[3].arg.value))
  }

  /**
   * The guards run in the order adult, child, infant, maximum: the first
   * argument in that order that is not a non-negative integer decides the
   * message, and when all pass the configuration holds the defaulted
   * arguments themselves.
   */
  lemma ValidatedReportsFirstFailingGuard(adult: Arg, child: Arg, infant: Arg, maxTickets: Arg)
    ensures var a, c, i, m := WithDefault(adult, DefaultAdultTicketPrice), WithDefault(child, DefaultChildTicketPrice),
                              WithDefault(infant, DefaultInfantTicketPrice), WithDefault(maxTickets, DefaultMaxTicketsPerOrder);
      Validated(adult, child, infant, maxTickets) ==
        if !IsNonNegativeInteger(a) then Failure(TypeError(AdultPriceMessage))
        else if !IsNonNegativeInteger(c) then Failure(TypeError(ChildPriceMessage))
        else if !IsNonNegativeInteger(i) then Failure(TypeError(InfantPriceMessage))
        else if !IsNonNegativeInteger(m) then Failure(TypeError(MaxTicketsMessage))
        else Success(Settings(a.value, c.value, i.value, m.value))
  {
  }

  /** Leaving out every argument gives the documented defaults 20, 10, 0 and 20. */
  lemma OmittedArgumentsTakeDefaults()
    ensures Validated(Missing, Missing, Missing, Missing) == Success(Settings(20, 10, 0, 20))
  {
  }

  /**
   * A bad maximum is reported with the infant-price message, so a caller
   * cannot tell it apart from a bad infant price.
   */
  lemma BadMaximumReadsAsBadInfantPrice(adult: Arg, child: Arg, infant: Arg, maxTickets: Arg)
    requires Validated(adult, child, infant, Int(0)).Success?
    requires !IsNonNegativeInteger(WithDefault(maxTickets, DefaultMaxTicketsPerOrder))
    ensures Validated(adult, child, infant, maxTickets) == Validated(adult, child, NonInteger, Int(0))
    ensures Validated(adult, child, infant, maxTickets).Failure?
  {
  }

  /** The configuration object. Its fields are constants: nothing writes them after construction. */
  class TicketServiceConfig {
    const adultTicketPrice: nat
    const childTicketPrice: nat
    const infantTicketPrice: nat
    const maxTicketsPerOrder: nat

    /** Stores the four values once every guard has passed. */
    constructor (adult: nat, child: nat, infant: nat, maxTickets: nat)
      ensures GetAdultTicketPrice() == adult && GetChildTicketPrice() == child
      ensures GetInfantTicketPrice() == infant && GetMaxTicketsPerOrder() == maxTickets
    {
      adultTicketPrice := adult;
      childTicketPrice := child;
      infantTicketPrice := infant;
      maxTicketsPerOrder := maxTickets;
    }

    function GetAdultTicketPrice(): nat { adultTicketPrice }
    function GetChildTicketPrice(): nat { childTicketPrice }
    function GetInfantTicketPrice(): nat { infantTicketPrice }
    function GetMaxTicketsPerOrder(): nat { maxTicketsPerOrder }

    /**
     * `new TicketServiceConfig(...)`: fills in defaults, runs the four guards
     * in order and throws at the first that fails, else builds the object.
     */
    static method Create(adult: Arg, child: Arg, infant: Arg, maxTickets: Arg)
      returns (r: Result<TicketServiceConfig, TypeError>)
      ensures r.Success? <==> Validated(adult, child, infant, maxTickets).Success?
      ensures r.Failure? ==> r.error == Validated(adult, child, infant, maxTickets).error
      ensures r.Success? ==> fresh(r.value)
      ensures r.Success? ==>
        var settings := Validated(adult, child, infant, maxTickets).value;
        && r.value.GetAdultTicketPrice() == settings.adultTicketPrice
        && r.value.GetChildTicketPrice() == settings.childTicketPrice
        && r.value.GetInfantTicketPrice() == settings.infantTicketPrice
        && r.value.GetMaxTicketsPerOrder() == settings.maxTicketsPerOrder
    {
      var a := WithDefault(adult, DefaultAdultTicketPrice);
      var c := WithDefault(child, DefaultChildTicketPrice);
      var i := WithDefault(infant, DefaultInfantTicketPrice);
      var m := WithDefault(maxTickets, DefaultMaxTicketsPerOrder);
      ValidatedReportsFirstFailingGuard(adult, child, infant, maxTickets);
      if !IsNonNegativeInteger(a) {
        return Failure(TypeError(AdultPriceMessage));
      }
      if !IsNonNegativeInteger(c) {
        return Failure(TypeError(ChildPriceMessage));
      }
      if !IsNonNegativeInteger(i) {
        return Failure(TypeError(InfantPriceMessage));
      }
      if !IsNonNegativeInteger(m) {
        return Failure(TypeError(MaxTicketsMessage));
      }
      var config := new TicketServiceConfig(a.value, c.value, i.value, m.value);
      return Success(config);
    }
  }
}
