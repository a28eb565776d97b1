/**
 * Object-storage keys and upload parameters (Backend/utils/s3.js).
 *
 * `uploadFile(file, folder)` stores `file` under the key
 * `${folder}/${file.originalname}-${Date.now()}`; the three exported wrappers
 * fix the folder.  The clock is a parameter and the upload itself is a
 * foreign call whose reply is given (see Services).
 */
module Storage {

  /** A multer memory-storage file; its size is the length of its buffer. */
  datatype File = File(originalname: string, mimetype: string, buffer: seq<bv8>)

  /** The `params` object handed to `s3.upload`. */
  datatype UploadParams = UploadParams(bucket: string, key: string, body: seq<bv8>, contentType: string)

  /** What a successful `s3.upload(...).promise()` resolves to; the handlers read only `Location`. */
  datatype S3Data = S3Data(location: string)

  /** The three wrappers `uploadProfilePicture`, `uploadVideo`, `uploadThumbnail`. */
  datatype Kind = ProfilePicture | VideoAsset | Thumbnail

  function Folder(kind: Kind): (f: string)
    ensures '/' !in f && f != ""
  {
    match kind
    case ProfilePicture => "profile-pictures"
    case VideoAsset => "uploaded-videos"
    case Thumbnail => "video-thumbnails"
  }

  /** The three folders are pairwise distinct. */
  lemma FoldersDistinct(k1: Kind, k2: Kind)
    ensures k1 != k2 ==> Folder(k1) != Folder(k2)
  {
  }

  function DigitChar(d: nat): (c: char)
    requires d < 10
    ensures '0' <= c <= '9'
  {
    ('0' as int + d) as char
  }

  function DigitValue(c: char): nat
  {
    if '0' <= c <= '9' then c as int - '0' as int else 0
  }

  /** A millisecond timestamp as a template literal prints it: decimal, no leading zeros. */
  function Decimal(n: nat): (s: string)
    ensures s != []
    ensures forall i :: 0 <= i < |s| ==> '0' <= s[i] <= '9'
    ensures |s| > 1 ==> s[0] != '0'
  {
    if n < 10 then [DigitChar(n)] else Decimal(n / 10) + [DigitChar(n % 10)]
  }

  /** Reads a decimal string back. */
  function ParseDecimal(s: string): nat
  {
    if s == [] then 0 else 10 * ParseDecimal(s[..|s| - 1]) + DigitValue(s[|s| - 1])
  }

  lemma {:induction false} DecimalRoundTrip(n: nat)
    ensures ParseDecimal(Decimal(n)) == n
  {
    if n >= 10 {
      var s := Decimal(n);
      assert s[..|s| - 1] == Decimal(n / 10);
      DecimalRoundTrip(n / 10);
    }
  }

  /** The object key `${folder}/${originalname}-${timestamp}`. */
  function StorageKey(folder: string, originalname: string, timestamp: nat): string
  {
    folder + "/" + originalname + "-" + Decimal(timestamp)
  }

  /** The text of a key before its first `/`. */
  function KeyFolder(key: string): (f: string)
    ensures '/' !in f
    ensures |f| <= |key| && f == key[..|f|]
    ensures |f| < |key| ==> key[|f|] == '/'
  {
    if key == [] || key[0] == '/' then []
    else
      var rest := KeyFolder(key[1..]);
      assert key[1..][..|rest|] == key[1..|rest| + 1];
      [key[0]] + rest
  }

  /** A slash-free folder is recovered from any key built on it. */
  lemma {:induction false} KeyFolderOfKey(folder: string, rest: string)
    requires '/' !in folder
    ensures KeyFolder(folder + "/" + rest) == folder
  {
    if folder != [] {
      assert (folder + "/" + rest)[1..] == folder[1..] + "/" + rest;
      KeyFolderOfKey(folder[1..], rest);
    }
  }

  /** The folder of a stored object's key is the folder it was uploaded to. */
  lemma KeyFolderOfStorageKey(folder: string, name: string, t: nat)
    requires '/' !in folder
    ensures KeyFolder(StorageKey(folder, name, t)) == folder
  {
    assert StorageKey(folder, name, t) == folder + "/" + (name + "-" + Decimal(t));
    KeyFolderOfKey(folder, name + "-" + Decimal(t));
  }

  /** Keys in different folders never collide, whatever the names and timestamps. */
  lemma KindsNeverCollide(k1: Kind, k2: Kind, name1: string, name2: string, t1: nat, t2: nat)
    requires k1 != k2
    ensures StorageKey(Folder(k1), name1, t1) != StorageKey(Folder(k2), name2, t2)
  {
    FoldersDistinct(k1, k2);
    KeyFolderOfStorageKey(Folder(k1), name1, t1);
    KeyFolderOfStorageKey(Folder(k2), name2, t2);
  }

  /** The same file in the same folder at two different instants gets two different keys. */
  lemma TimestampsNeverCollide(folder: string, name: string, t1: nat, t2: nat)
    requires t1 != t2
    ensures StorageKey(folder, name, t1) != StorageKey(folder, name, t2)
  {
    var prefix := folder + "/" + name + "-";
    if StorageKey(folder, name, t1) == StorageKey(folder, name, t2) {
      assert StorageKey(folder, name, t1)[|prefix|..] == Decimal(t1);
      assert StorageKey(folder, name, t2)[|prefix|..] == Decimal(t2);
      DecimalRoundTrip(t1);
      DecimalRoundTrip(t2);
    }
  }

  /** The `params` of `uploadFile(file, Folder(kind))` at instant `timestamp`. */
  function Params(bucket: string, file: File, kind: Kind, timestamp: nat): (p: UploadParams)
    ensures p.bucket == bucket
    ensures p.body == file.buffer && p.contentType == file.mimetype
    ensures p.key == StorageKey(Folder(kind), file.originalname, timestamp)
    ensures KeyFolder(p.key) == Folder(kind)
  {
    KeyFolderOfKey(Folder(kind), file.originalname + "-" + Decimal(timestamp));
    assert StorageKey(Folder(kind), file.originalname, timestamp) ==
      Folder(kind) + "/" + (file.originalname + "-" + Decimal(timestamp));
    UploadParams(bucket, StorageKey(Folder(kind), file.originalname, timestamp), file.buffer, file.mimetype)
  }
}
