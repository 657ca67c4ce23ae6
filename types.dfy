/**
 * Shared vocabulary of the model: type descriptors standing in for Java
 * `Class` objects, property values of data-transfer objects, the failure
 * wrappers used where the library throws, and the decimal rendering of an
 * `int` that string concatenation performs.
 */
module Types {

  /** A runtime type. Identity is the whole value; `name` is what
      `Class.getName()` returns. Two distinct types may share a name
      (classes of the same name from different class loaders). */
  datatype TypeRef = TypeRef(id: nat, name: string)

  /** A property value held by a data-transfer object. */
  datatype Value = Null | Text(s: string) | Number(n: int)

  /** The property state of one data-transfer object, by property name. */
  type Props = map<string, Value>

  datatype Option<+T> = None | Some(value: T)

  /** The Java exceptions the modelled code raises. */
  datatype Error =
    | UnsupportedOperation(message: string)
    | IllegalArgument(message: string)
    | NoSuchElement
    | NullPointer

  datatype Result<+R> = Success(value: R) | Failure(error: Error)

  datatype Outcome = Pass | Fail(error: Error)

  function DigitChar(d: nat): (c: char)
    requires d < 10
    ensures '0' <= c <= '9'
    ensures c == '0' <==> d == 0
  {
    "0123456789"[d]
  }

  /** Decimal digits of a natural number, most significant first, with no
      leading zero. */
  function NatToString(n: nat): (s: string)
    ensures |s| > 0
    ensures forall k :: 0 <= k < |s| ==> '0' <= s[k] <= '9'
    ensures |s| > 1 ==> s[0] != '0'
    decreases n
  {
    if n < 10 then [DigitChar(n)] else NatToString(n / 10) + [DigitChar(n % 10)]
  }

  /** `Integer.toString`: a minus sign for negative numbers, then the digits. */
  function IntToString(n: int): (s: string)
    ensures |s| > 0
    ensures (s[0] == '-') <==> n < 0
  {
    if n < 0 then "-" + NatToString(-n) else NatToString(n)
  }
}
