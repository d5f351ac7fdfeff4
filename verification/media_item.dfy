/** A file in the window's media list. Every property setter stores its value
    and raises `PropertyChanged` only when the value differs from the stored
    one; setting the media type recomputes the three kind flags. */
module MediaItems {
  import opened Wrappers
  import opened Text

  /** A `DateTime`, as whole seconds since 0001-01-01T00:00:00. */
  type DateTime = int

  /** Seconds from 0001-01-01 to the Unix epoch 1970-01-01. */
  const UnixEpoch: int := 62_135_596_800

  /** 9999-12-31T23:59:59 in Unix seconds, the last second a `DateTimeOffset`
      can hold. */
  const MaxUnixSeconds: int := 253_402_300_799

  /** `DateTimeOffset.FromUnixTimeSeconds(s).DateTime`, `None` where it throws
      `ArgumentOutOfRangeException`. */
  function FromUnixTimeSeconds(s: int): (r: Option<DateTime>)
    ensures r.Some? <==> -UnixEpoch <= s <= MaxUnixSeconds
    ensures r.Some? ==> 0 <= r.value && r.value - UnixEpoch == s
  {
    if -UnixEpoch <= s <= MaxUnixSeconds then Some(UnixEpoch + s) else None
  }

  /** The unit `FileSizeFormatted` writes after the number. */
  datatype SizeUnit = B | KB | MB | GB

  /** The number of bytes one unit stands for. */
  function Scale(u: SizeUnit): int {
    match u
    case B => 1
    case KB => 1024
    case MB => 1024 * 1024
    case GB => 1024 * 1024 * 1024
  }

  /** The unit chosen for a size of `size` bytes: the largest unit, up to
      gigabytes, that the size reaches; bytes for anything below 1024. */
  function UnitOf(size: int): (u: SizeUnit)
    ensures u == B || Scale(u) <= size
    ensures u == GB || size < 1024 * Scale(u)
  {
    if size < 1024 then B
    else if size < 1024 * 1024 then KB
    else if size < 1024 * 1024 * 1024 then MB
    else GB
  }

  /** A size gets unit `u` exactly when it is at least one `u` and below
      1024 of them; bytes take everything below 1024, gigabytes everything
      from 1024³ up. */
  lemma UnitOfRange(size: int, u: SizeUnit)
    ensures UnitOf(size) == u <==>
      (u == B || Scale(u) <= size) && (u == GB || size < 1024 * Scale(u))
  {
  }

  /** A larger file never gets a smaller unit. */
  lemma UnitOfMonotone(a: int, b: int)
    requires a <= b
    ensures Scale(UnitOf(a)) <= Scale(UnitOf(b))
  {
  }

  /** The kind flags of a media item. */
  datatype Kind = Kind(video: bool, image: bool, document: bool)

  /** The flags `UpdateMediaTypeFlags` computes for a media type. The two
      prefix tests use the current culture, which for these ASCII prefixes
      is taken to compare as ordinal does, so they are case-sensitive. */
  function KindOf(mediaType: string): (k: Kind)
    ensures k.video <==> StartsWith(mediaType, "video/")
    ensures k.image <==> StartsWith(mediaType, "image/")
    ensures k.video || k.image || k.document
    ensures !(k.video && k.image) && !(k.video && k.document) && !(k.image && k.document)
  {
    var video := StartsWith(mediaType, "video/");
    var image := StartsWith(mediaType, "image/");
    assert video ==> mediaType[0] == "video/"[0] == 'v';
    assert image ==> mediaType[0] == "image/"[0] == 'i';
    Kind(video, image, !video && !image)
  }

  /** An upper-case type is not recognised. */
  lemma KindIsCaseSensitive()
    ensures KindOf("VIDEO/MP4") == Kind(false, false, true)
    ensures KindOf("video/mp4") == Kind(true, false, false)
  {
    assert "VIDEO/MP4"[0] != 'v' && "VIDEO/MP4"[0] != 'i';
    assert "video/mp4"[..6] == "video/";
  }

  /** The notice a setter raises: the property's name when its value changes,
      nothing otherwise. */
  function Notice(name: string, changes: bool): seq<string> {
    if changes then [name] else []
  }

  /** The notices of the three flag setters, in the order
      `UpdateMediaTypeFlags` calls them. */
  function FlagNotices(before: Kind, after: Kind): seq<string> {
    Notice("IsVideo", before.video != after.video)
      + Notice("IsImage", before.image != after.image)
      + Notice("IsDocument", before.document != after.document)
  }

  class MediaItem {
    var fileName: string
    var filePath: string
    var mediaType: string
    var fileSize: int
    var timestamp: DateTime
    var senderName: string
    var groupId: string
    var isVideo: bool
    var isImage: bool
    var isDocument: bool
    var extension: string
    /** The names passed to `PropertyChanged`, oldest first. */
    var changed: seq<string>

    /** The current kind flags. */
    function Flags(): Kind
      reads this`isVideo, this`isImage, this`isDocument
    {
      Kind(isVideo, isImage, isDocument)
    }

    /** The flags agree with the media type. */
    predicate FlagsMatch()
      reads this`mediaType, this`isVideo, this`isImage, this`isDocument
    {
      Flags() == KindOf(mediaType)
    }

    /** A new item: empty strings, zero size, `DateTime.MinValue`, no flag. */
    constructor ()
      ensures fileName == "" && filePath == "" && mediaType == "" && senderName == ""
      ensures groupId == "" && extension == "" && fileSize == 0 && timestamp == 0
      ensures Flags() == Kind(false, false, false) && changed == []
    {
      fileName, filePath, mediaType, senderName := "", "", "", "";
      groupId, extension, fileSize, timestamp := "", "", 0, 0;
      isVideo, isImage, isDocument := false, false, false;
      changed := [];
    }

    method SetFileName(value: string)
      modifies this`fileName, this`changed
      ensures fileName == value
      ensures changed == old(changed) + Notice("FileName", old(fileName) != value)
    {
      if fileName != value {
        fileName := value;
        changed := changed + ["FileName"];
      }
    }

    method SetFilePath(value: string)
      modifies this`filePath, this`changed
      ensures filePath == value
      ensures changed == old(changed) + Notice("FilePath", old(filePath) != value)
    {
      if filePath != value {
        filePath := value;
        changed := changed + ["FilePath"];
      }
    }

    /** A new type is stored, announced, and its flags recomputed; the type
        it already has changes nothing at all. */
    method SetMediaType(value: string)
      modifies this`mediaType, this`isVideo, this`isImage, this`isDocument, this`changed
      ensures mediaType == value
      ensures old(mediaType) == value ==> Flags() == old(Flags()) && changed == old(changed)
      ensures old(mediaType) != value ==> FlagsMatch()
      ensures old(mediaType) != value ==>
        changed == old(changed) + ["MediaType"] + FlagNotices(old(Flags()), KindOf(value))
    {
      if mediaType != value {
        mediaType := value;
        changed := changed + ["MediaType"];
        UpdateMediaTypeFlags();
      }
    }

    /** Size changes also announce the formatted size. */
    method SetFileSize(value: int)
      modifies this`fileSize, this`changed
      ensures fileSize == value
      ensures changed == old(changed) + (if old(fileSize) != value then ["FileSize", "FileSizeFormatted"] else [])
    {
      if fileSize != value {
        fileSize := value;
        changed := changed + ["FileSize", "FileSizeFormatted"];
      }
    }

    /** Time changes also announce the formatted time. */
    method SetTimestamp(value: DateTime)
      modifies this`timestamp, this`changed
      ensures timestamp == value
      ensures changed == old(changed) + (if old(timestamp) != value then ["Timestamp", "TimestampFormatted"] else [])
    {
      if timestamp != value {
        timestamp := value;
        changed := changed + ["Timestamp", "TimestampFormatted"];
      }
    }

    method SetSenderName(value: string)
      modifies this`senderName, this`changed
      ensures senderName == value
      ensures changed == old(changed) + Notice("SenderName", old(senderName) != value)
    {
      if senderName != value {
        senderName := value;
        changed := changed + ["SenderName"];
      }
    }

    method SetGroupId(value: string)
      modifies this`groupId, this`changed
      ensures groupId == value
      ensures changed == old(changed) + Notice("GroupId", old(groupId) != value)
    {
      if groupId != value {
        groupId := value;
        changed := changed + ["GroupId"];
      }
    }

    method SetIsVideo(value: bool)
      modifies this`isVideo, this`changed
      ensures isVideo == value
      ensures changed == old(changed) + Notice("IsVideo", old(isVideo) != value)
    {
      if isVideo != value {
        isVideo := value;
        changed := changed + ["IsVideo"];
      }
    }

    method SetIsImage(value: bool)
      modifies this`isImage, this`changed
      ensures isImage == value
      ensures changed == old(changed) + Notice("IsImage", old(isImage) != value)
    {
      if isImage != value {
        isImage := value;
        changed := changed + ["IsImage"];
      }
    }

    method SetIsDocument(value: bool)
      modifies this`isDocument, this`changed
      ensures isDocument == value
      ensures changed == old(changed) + Notice("IsDocument", old(isDocument) != value)
    {
      if isDocument != value {
        isDocument := value;
        changed := changed + ["IsDocument"];
      }
    }

    method SetExtension(value: string)
      modifies this`extension, this`changed
      ensures extension == value
      ensures changed == old(changed) + Notice("Extension", old(extension) != value)
    {
      if extension != value {
        extension := value;
        changed := changed + ["Extension"];
      }
    }

    /** Recomputes the flags through their setters: afterwards exactly one
        holds and they agree with the type. */
    method UpdateMediaTypeFlags()
      modifies this`isVideo, this`isImage, this`isDocument, this`changed
      ensures FlagsMatch()
      ensures changed == old(changed) + FlagNotices(old(Flags()), KindOf(mediaType))
    {
      SetIsVideo(StartsWith(mediaType, "video/"));
      SetIsImage(StartsWith(mediaType, "image/"));
      SetIsDocument(!isVideo && !isImage);
    }
  }

  /** The object initializer of a new list entry: the properties are set in
      this order through their setters, starting from a new item. */
  method Create(fileName: string, filePath: string, mediaType: string, fileSize: int,
                timestamp: DateTime, senderName: string, extension: string) returns (item: MediaItem)
    ensures fresh(item)
    ensures item.fileName == fileName && item.filePath == filePath && item.mediaType == mediaType
    ensures item.fileSize == fileSize && item.timestamp == timestamp && item.senderName == senderName
    ensures item.extension == extension && item.groupId == ""
    ensures mediaType != "" ==> item.FlagsMatch()
    ensures mediaType == "" ==> item.Flags() == Kind(false, false, false)
  {
    item := new MediaItem();
    item.SetFileName(fileName);
    item.SetFilePath(filePath);
    item.SetMediaType(mediaType);
    item.SetFileSize(fileSize);
    item.SetTimestamp(timestamp);
    item.SetSenderName(senderName);
    item.SetExtension(extension);
  }

  /** An item whose type is set to "" keeps the new item's flags: none holds,
      although `KindOf("")` is a document. */
  method UntypedItemHasNoKind() returns (flags: Kind)
    ensures flags == Kind(false, false, false) && KindOf("").document
  {
    var item := new MediaItem();
    item.SetMediaType("");
    flags := item.Flags();
  }

  /** Any other type gives exactly one flag. */
  method TypedItemHasOneKind(mediaType: string) returns (flags: Kind)
    requires mediaType != ""
    ensures flags == KindOf(mediaType)
    ensures flags.video || flags.image || flags.document
  {
    var item := new MediaItem();
    item.SetMediaType(mediaType);
    flags := item.Flags();
  }
}
