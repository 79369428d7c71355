/**
 * The values the connector moves around: JSON-like property values, documents,
 * the exceptions that can escape an operation, and the two mutable Hadoop
 * holder objects (DocumentDBWritable and LongWritable).
 */
module Documents {
  import opened Wrappers

  /** The Java exceptions the connector raises, catches or lets through. */
  datatype Error =
    | DocumentClientError(statusCode: int, retryAfterMs: nat)  // DocumentClientException from the service
    | IllegalState(cause: Option<Error>)                       // IllegalStateException(message, cause)
    | IllegalArgument(message: string)                          // IllegalArgumentException
    | NumberFormat(input: string)                               // NumberFormatException from Integer.parseInt
    | IOError(message: string, cause: Option<Error>)            // IOException
    | NullPointer                                               // NullPointerException
    | IndexOutOfBounds                                          // ArrayIndexOutOfBounds / IndexOutOfBounds
    | Thrown(className: string)                                 // anything else a collaborator throws

  /**
   * A property value as it appears inside a document or a Pig record:
   * JSON null, booleans, numbers, strings, arrays (ArrayList), objects (Map),
   * and Pig tuples, which only the Pig adapters produce.
   */
  datatype Value =
    | Null
    | Bool(b: bool)
    | Number(n: int)
    | Str(s: string)
    | List(items: seq<Value>)
    | Dict(entries: map<string, Value>)
    | Tuple(fields: seq<Value>)

  /** A document is its property bag; its id is the "id" property. */
  datatype Document = Document(props: map<string, Value>)

  const ID_PROPERTY := "id"

  /** Document.getId() is non-null: the "id" property is set to something other than JSON null. */
  predicate HasId(d: Document) {
    ID_PROPERTY in d.props && !d.props[ID_PROPERTY].Null?
  }

  /** The value of `new Document()`: no properties at all. */
  const EmptyDocument := Document(map[])

  /** DocumentDBWritable: a mutable holder of one document. */
  class DocumentDBWritable {
    var doc: Document

    /** `new DocumentDBWritable()` holds `new Document()`. */
    constructor()
      ensures doc == EmptyDocument
    {
      doc := EmptyDocument;
    }

    method SetDoc(d: Document)
      modifies this
      ensures doc == d
    {
      doc := d;
    }
  }

  /** Hadoop's LongWritable, used only as a key that is never set. */
  class LongWritable {
    var value: int

    constructor()
      ensures value == 0
    {
      value := 0;
    }
  }
}
