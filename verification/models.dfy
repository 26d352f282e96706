/**
 * The unified holding record every parser fills in: nine optional attributes,
 * and its dictionary form, which keeps exactly the attributes that are set.
 */
module Models {
  import opened Strings
  import opened Numbers

  /** A value an attribute can hold: text, a Python `int`, or a Python `float`, kept as the
      exact decimal it was read from. */
  datatype Value = Text(text: string) | Int(integer: int) | Num(number: Decimal)

  /** A Python dict from attribute name to value. */
  type Dict = map<string, Value>

  /** The attribute names, in the order the constructor assigns them. */
  const FieldNames: seq<string> :=
    ["name", "code", "quantity", "market_value", "cost_price",
     "current_price", "position_ratio", "profit_ratio", "profit_amount"]

  /** The attributes of one `InvestmentInfo`, as a value; `None` is Python's `None`. */
  datatype Record = Record(
    name: Option<Value>,
    code: Option<Value>,
    quantity: Option<Value>,
    marketValue: Option<Value>,
    costPrice: Option<Value>,
    currentPrice: Option<Value>,
    positionRatio: Option<Value>,
    profitRatio: Option<Value>,
    profitAmount: Option<Value>)
  {
    /** The attribute called `field`; `None` for a name that is not an attribute. */
    function Get(field: string): Option<Value> {
      if field == "name" then name
      else if field == "code" then code
      else if field == "quantity" then quantity
      else if field == "market_value" then marketValue
      else if field == "cost_price" then costPrice
      else if field == "current_price" then currentPrice
      else if field == "position_ratio" then positionRatio
      else if field == "profit_ratio" then profitRatio
      else if field == "profit_amount" then profitAmount
      else None
    }

    /** `to_dict`: the attributes whose value is not `None`, each mapped to its value. */
    function ToDict(): (d: Dict)
      ensures forall k :: k in d <==> Get(k).Some?
      ensures forall k | k in d :: Get(k) == Some(d[k])
      ensures forall k | k in d :: k in FieldNames
    {
      map k | k in FieldNames && Get(k).Some? :: Get(k).value
    }
  }

  /** The record with every attribute `None`, as `InvestmentInfo()` builds it. */
  function Empty(): Record {
    Record(None, None, None, None, None, None, None, None, None)
  }

  /** The entry for `k`, or `None` when `d` has none. */
  function Lookup(d: Dict, k: string): Option<Value> {
    if k in d then Some(d[k]) else None
  }

  /** Reads a dictionary back into a record; keys that are not attributes are ignored. */
  function FromDict(d: Dict): Record {
    Record(Lookup(d, "name"), Lookup(d, "code"), Lookup(d, "quantity"),
           Lookup(d, "market_value"), Lookup(d, "cost_price"), Lookup(d, "current_price"),
           Lookup(d, "position_ratio"), Lookup(d, "profit_ratio"), Lookup(d, "profit_amount"))
  }

  /** `to_dict` loses nothing: the record comes back from its dictionary, so a zero,
      an empty string and an absent attribute stay three different things. */
  lemma FromToDict(r: Record)
    ensures FromDict(r.ToDict()) == r
  {
    var d := r.ToDict();
    assert forall k :: Lookup(d, k) == r.Get(k);
  }

  /** The dictionary is empty exactly when every attribute is `None`. */
  lemma EmptyDict(r: Record)
    ensures r.ToDict() == map[] <==> r == Empty()
  {
    FromToDict(r);
    FromToDict(Empty());
  }

  /** `to_dict` is injective: two records with the same dictionary are equal. */
  lemma ToDictInjective(r: Record, s: Record)
    requires r.ToDict() == s.ToDict()
    ensures r == s
  {
    FromToDict(r);
    FromToDict(s);
  }

  /** An investment record whose attributes the parsers assign one at a time. */
  class InvestmentInfo {
    var name: Option<Value>
    var code: Option<Value>
    var quantity: Option<Value>
    var marketValue: Option<Value>
    var costPrice: Option<Value>
    var currentPrice: Option<Value>
    var positionRatio: Option<Value>
    var profitRatio: Option<Value>
    var profitAmount: Option<Value>

    /** Every keyword argument is stored unchanged in the attribute of the same name. */
    constructor(name: Option<Value> := None, code: Option<Value> := None,
                quantity: Option<Value> := None, marketValue: Option<Value> := None,
                costPrice: Option<Value> := None, currentPrice: Option<Value> := None,
                positionRatio: Option<Value> := None, profitRatio: Option<Value> := None,
                profitAmount: Option<Value> := None)
      ensures Attributes() == Record(name, code, quantity, marketValue, costPrice,
                                     currentPrice, positionRatio, profitRatio, profitAmount)
    {
      this.name := name;
      this.code := code;
      this.quantity := quantity;
      this.marketValue := marketValue;
      this.costPrice := costPrice;
      this.currentPrice := currentPrice;
      this.positionRatio := positionRatio;
      this.profitRatio := profitRatio;
      this.profitAmount := profitAmount;
    }

    /** The current attribute values. */
    function Attributes(): Record
      reads this
    {
      Record(name, code, quantity, marketValue, costPrice,
             currentPrice, positionRatio, profitRatio, profitAmount)
    }

    /** `to_dict` on the object: one entry per attribute that is not `None`. */
    function ToDict(): (d: Dict)
      reads this
      ensures "name" in d <==> name.Some?
      ensures "market_value" in d <==> marketValue.Some?
      ensures forall k | k in d :: k in FieldNames && Attributes().Get(k) == Some(d[k])
      ensures FromDict(d) == Attributes()
    {
      FromToDict(Attributes());
      Attributes().ToDict()
    }
  }

  /** `InvestmentInfo()` with no arguments has an empty dictionary. */
  method NoArguments() returns (d: Dict)
    ensures d == map[]
  {
    var info := new InvestmentInfo();
    d := info.ToDict();
  }
}
