/** `FileUploadService`: receipt attachments. A file is validated (not empty,
    within the size limit, an allowed content type) before anything is
    written; it is then stored under a fresh random name that keeps the
    original extension, and an attachment record points at it. The file
    system is a map from path to bytes; the random name and the outcome of the
    file-system calls are inputs. */
module FileUpload {
  import opened Common
  import opened Tables

  type byte = bv8

  /** The parts of a multipart upload the service reads. */
  datatype UploadedFile = UploadedFile(originalFilename: Option<string>, contentType: Option<string>, bytes: seq<byte>)

  datatype Attachment = Attachment(
    ledgerEntryId: Id,
    filename: string,
    originalFilename: Option<string>,
    contentType: Option<string>,
    size: nat,
    storageKey: string,
    uploadedAt: Instant)

  /** `app.file.max-size`, 10 MB unless configured. */
  const DefaultMaxFileSize := 10_485_760

  /** `app.file.upload.directory`, "./uploads" unless configured. */
  const DefaultUploadDirectory := "./uploads"

  /** `isAllowedContentType` */
  predicate IsAllowedContentType(contentType: string) {
    StartsWith(contentType, "image/") || contentType == "application/pdf" || StartsWith(contentType, "text/")
  }

  /** `validateFile`: the first rule the file breaks, in the order empty,
      too large, content type. */
  function ValidateFile(file: UploadedFile, maxFileSize: int): (r: Result<()>)
    ensures r.Ok? <==> |file.bytes| > 0 && |file.bytes| <= maxFileSize
                       && file.contentType.Some? && IsAllowedContentType(file.contentType.value)
    ensures |file.bytes| == 0 ==> r == Err("File is empty")
    ensures 0 < |file.bytes| && |file.bytes| > maxFileSize ==> r == Err("File size exceeds maximum allowed size")
    ensures 0 < |file.bytes| <= maxFileSize && !(file.contentType.Some? && IsAllowedContentType(file.contentType.value)) ==>
              r == Err("File type not allowed")
  {
    if |file.bytes| == 0 then Err("File is empty")
    else if |file.bytes| > maxFileSize then Err("File size exceeds maximum allowed size")
    else if file.contentType.None? || !IsAllowedContentType(file.contentType.value) then Err("File type not allowed")
    else Ok(())
  }

  /** `String.lastIndexOf(c)`: the last position of `c`, or -1. */
  function LastIndexOf(s: string, c: char): (i: int)
    ensures -1 <= i < |s|
    ensures i >= 0 ==> s[i] == c && forall j :: i < j < |s| ==> s[j] != c
    ensures i == -1 ==> forall j :: 0 <= j < |s| ==> s[j] != c
  {
    if s == [] then -1
    else if s[|s| - 1] == c then |s| - 1
    else LastIndexOf(s[..|s| - 1], c)
  }

  /** `getFileExtension` */
  function FileExtension(filename: Option<string>): string {
    if filename.None? || LastIndexOf(filename.value, '.') == -1 then ""
    else filename.value[LastIndexOf(filename.value, '.')..]
  }

  /** The extension is empty exactly for a missing or dot-free name; otherwise
      it is a suffix of the name that starts with the name's last '.' and
      holds no other. */
  lemma ExtensionShape(filename: Option<string>)
    ensures FileExtension(filename) == "" <==> filename.None? || '.' !in filename.value
    ensures FileExtension(filename) != "" ==>
              var name, e := filename.value, FileExtension(filename);
              e[0] == '.' && '.' !in e[1..] && |e| <= |name| && name == name[..|name| - |e|] + e
  {
    if filename.Some? {
      var name := filename.value;
      var i := LastIndexOf(name, '.');
      if i == -1 {
        assert '.' !in name by {
          forall j | 0 <= j < |name| ensures name[j] != '.' { }
        }
      } else {
        assert '.' in name;
        var e := name[i..];
        assert '.' !in e[1..] by {
          forall k | 0 <= k < |e[1..]| ensures e[1..][k] != '.' {
            assert e[1..][k] == name[i + 1 + k];
          }
        }
        assert name == name[..i] + e;
      }
    }
  }

  /** A name with no '.' of its own, such as a random UUID, followed by the
      extension of `filename` has that same extension: the stored name keeps
      the original file's extension. */
  lemma {:induction false} StoredNameKeepsExtension(uuid: string, filename: Option<string>)
    requires '.' !in uuid
    ensures FileExtension(Some(uuid + FileExtension(filename))) == FileExtension(filename)
  {
    var e := FileExtension(filename);
    var stored := uuid + e;
    ExtensionShape(filename);
    if e == "" {
      assert stored == uuid;
      assert LastIndexOf(stored, '.') == -1;
    } else {
      var i := LastIndexOf(stored, '.');
      assert stored[|uuid|] == '.';
      assert i == |uuid|;
      assert stored[i..] == e;
    }
  }

  /** The service with its attachment collection and the part of the file
      system it writes to. */
  class FileUploadService {
    const attachments: Table<Attachment>
    var files: map<string, seq<byte>>
    const uploadDirectory: string
    const maxFileSize: int

    ghost predicate Valid()
      reads this, attachments
    {
      attachments.Valid()
    }

    constructor (attachments: Table<Attachment>, uploadDirectory: string, maxFileSize: int)
      ensures this.attachments == attachments && this.uploadDirectory == uploadDirectory
      ensures this.maxFileSize == maxFileSize && files == map[]
    {
      this.attachments := attachments;
      this.uploadDirectory := uploadDirectory;
      this.maxFileSize := maxFileSize;
      files := map[];
    }

    /** `uploadPath.resolve(name).toString()` */
    function StorageKey(name: string): string
      reads this
    {
      uploadDirectory + "/" + name
    }

    /** `uploadFile`. `uuid` is the random name and `ioError` the message of
        an `IOException` from the file-system calls, if one is thrown. */
    method UploadFile(file: UploadedFile, ledgerEntryId: Id, uuid: string, ioError: Option<string>, now: Instant)
      returns (r: Result<Id>)
      requires Valid()
      modifies this, attachments
      ensures Valid()
      ensures ValidateFile(file, maxFileSize).Err? ==>
                r == Err(ValidateFile(file, maxFileSize).message)
                && files == old(files) && attachments.rows == old(attachments.rows)
      ensures ValidateFile(file, maxFileSize).Ok? && ioError.Some? ==>
                r == Err("File upload failed: " + ioError.value)
                && files == old(files) && attachments.rows == old(attachments.rows)
      ensures r.Ok? ==>
                var name := uuid + FileExtension(file.originalFilename);
                r.value == FreshId(old(attachments.rows))
                && files == old(files)[StorageKey(name) := file.bytes]
                && attachments.rows == old(attachments.rows)
                     + [Row(r.value, Attachment(ledgerEntryId, name, file.originalFilename, file.contentType,
                                                |file.bytes|, StorageKey(name), now))]
      ensures r.Ok? <==> ValidateFile(file, maxFileSize).Ok? && ioError.None?
    {
      var valid := ValidateFile(file, maxFileSize);
      if valid.Err? {
        return Err(valid.message);
      }
      if ioError.Some? {
        return Err("File upload failed: " + ioError.value);
      }
      var name := uuid + FileExtension(file.originalFilename);
      var path := StorageKey(name);
      files := files[path := file.bytes];
      var attachment := Attachment(ledgerEntryId, name, file.originalFilename, file.contentType,
                                   |file.bytes|, path, now);
      var id := attachments.Insert(attachment);
      r := Ok(id);
    }

    /** `getFileUrl` */
    method GetFileUrl(attachmentId: Id) returns (r: Result<string>)
      ensures r.Ok? <==> HasId(attachments.rows, attachmentId)
      ensures r.Ok? ==> r.value == "/api/v1/files/" + attachmentId + "/download"
      ensures r.Err? ==> r.message == "Attachment not found"
    {
      var attachment := attachments.Get(attachmentId);
      if attachment.None? {
        return Err("Attachment not found");
      }
      r := Ok("/api/v1/files/" + attachmentId + "/download");
    }

    /** `getFileContent`. A stored key with no file behind it makes
        `readAllBytes` throw; its message is `ioError`. */
    method GetFileContent(attachmentId: Id, ioError: string) returns (r: Result<seq<byte>>)
      ensures !HasId(attachments.rows, attachmentId) ==> r == Err("Attachment not found")
      ensures HasId(attachments.rows, attachmentId) ==>
                var key := Find(attachments.rows, attachmentId).value.storageKey;
                r == if key in files then Ok(files[key]) else Err("Failed to read file: " + ioError)
    {
      var attachment := attachments.Get(attachmentId);
      if attachment.None? {
        return Err("Attachment not found");
      }
      var key := attachment.value.storageKey;
      if key !in files {
        return Err("Failed to read file: " + ioError);
      }
      r := Ok(files[key]);
    }

    /** `getAttachmentsByLedgerEntry` */
    method GetAttachmentsByLedgerEntry(ledgerEntryId: Id) returns (r: seq<Row<Attachment>>)
      ensures forall i :: 0 <= i < |r| ==> r[i] in attachments.rows && r[i].val.ledgerEntryId == ledgerEntryId
      ensures forall i :: 0 <= i < |attachments.rows| && attachments.rows[i].val.ledgerEntryId == ledgerEntryId
                ==> attachments.rows[i] in r
    {
      r := Select(attachments.rows, (a: Attachment) => a.ledgerEntryId == ledgerEntryId);
    }

    /** `deleteAttachment`: the file (if it is there) and then the record. */
    method DeleteAttachment(attachmentId: Id) returns (r: Result<()>)
      requires Valid()
      modifies this, attachments
      ensures Valid()
      ensures r.Ok? <==> HasId(old(attachments.rows), attachmentId)
      ensures r.Err? ==> r.message == "Attachment not found" && files == old(files)
                         && attachments.rows == old(attachments.rows)
      ensures r.Ok? ==> files == old(files) - {Find(old(attachments.rows), attachmentId).value.storageKey}
                        && attachments.rows == Remove(old(attachments.rows), attachmentId)
    {
      var attachment := attachments.Get(attachmentId);
      if attachment.None? {
        return Err("Attachment not found");
      }
      files := files - {attachment.value.storageKey};
      attachments.Delete(attachmentId);
      r := Ok(());
    }
  }

  /** An upload that passes validation can be read back byte for byte. */
  method UploadThenRead(service: FileUploadService, file: UploadedFile, ledgerEntryId: Id, uuid: string, now: Instant)
    returns (content: Result<seq<byte>>)
    requires service.Valid() && ValidateFile(file, service.maxFileSize).Ok?
    modifies service, service.attachments
    ensures content == Ok(file.bytes)
  {
    var id := service.UploadFile(file, ledgerEntryId, uuid, None, now);
    assert Find(service.attachments.rows, id.value).Some? by {
      FindAfterUpsert(old(service.attachments.rows), id.value, service.attachments.rows[|service.attachments.rows| - 1].val, id.value);
    }
    content := service.GetFileContent(id.value, "");
  }
}
