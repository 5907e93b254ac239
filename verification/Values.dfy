/** Convex values and function results (include/convex/value.h, include/convex/error.h). */
module Values {

  type Byte = n: nat | n < 256
  /** A 64-bit pattern: an unsigned integer, or the bits of a double. */
  type Bits64 = n: nat | n < 0x1_0000_0000_0000_0000
  type Int64 = n: int | -0x8000_0000_0000_0000 <= n < 0x8000_0000_0000_0000

  /** A double is kept as its bit pattern; no floating-point arithmetic is involved. */
  datatype Value =
    | Null
    | Boolean(b: bool)
    | Integer(n: Int64)
    | Float(bits: Bits64)
    | Text(text: string)
    | Binary(data: seq<Byte>)
    | Array(items: seq<Value>)
    | Object(fields: map<string, Value>)

  type ValueObject = map<string, Value>

  datatype FunctionResult =
    | Success(value: Value)
    | PlainError(message: string)
    | AppError(message: string, data: Value)
}
