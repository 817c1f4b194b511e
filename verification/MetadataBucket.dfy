/**
 The key-value operations both protocols make on the metadata bucket. Keys are the strings
 the code builds; values are what it stores under them.
 */
module MetadataBucket {

  datatype Value =
    | Blob(callback: string, docId: string, start: int)  // the JSON object of RegisterCallback
    | Text(text: string)                                 // a timer marker, or a CAS marker
    | Broken                                             // a blob with text appended to it

  type Bucket = map<string, Value>

  function Put(b: Bucket, k: string, v: Value): Bucket {
    b[k := v]
  }

  /** LCB_ADD: fails, and changes nothing, if the key exists. */
  function Add(b: Bucket, k: string, v: Value): Bucket {
    if k in b then b else b[k := v]
  }

  /** LCB_APPEND: fails, and changes nothing, if the key does not exist. */
  function Append(b: Bucket, k: string, t: string): Bucket {
    if k !in b then b
    else if b[k].Text? then b[k := Text(b[k].text + t)]
    else b[k := Broken]
  }

  function Delete(b: Bucket, k: string): Bucket {
    b - {k}
  }

  /** bucketGet: the text under a key, empty if there is none. */
  function ReadText(b: Bucket, k: string): string {
    if k in b && b[k].Text? then b[k].text else ""
  }
}
