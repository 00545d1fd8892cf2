// app/db/models/telegram/file.py: a stored file, keyed by its unique id alone, and its
// dictionary form.

module FileModel {

  import opened Wrappers
  import opened Json
  import opened Enums

  /** The non-key columns of `telegram_files` (the key is `file_unique_id`). */
  datatype FileRow = FileRow(fileType: FileType, fileSize: Json, mimeType: Json, otherData: Option<Dict>)

  const FILE_DICT_KEYS: set<string> := {"file_unique_id", "file_type", "file_size", "mime_type"}

  function PromotedFileDict(uniqueId: string, f: FileRow): (r: Dict)
    ensures r.Keys == FILE_DICT_KEYS
  {
    map[
      "file_unique_id" := JStr(uniqueId),
      "file_type" := JStr(FileTypeValue(f.fileType)),
      "file_size" := f.fileSize,
      "mime_type" := f.mimeType
    ]
  }

  /** `TelegramFile.to_dict`: the four promoted keys, then a truthy `other_data` merged in last. */
  function ToDict(uniqueId: string, f: FileRow): (r: Dict)
    ensures FILE_DICT_KEYS <= r.Keys
    ensures f.otherData.None? ==> r == PromotedFileDict(uniqueId, f)
    ensures f.otherData.Some? ==> (r.Keys == FILE_DICT_KEYS + f.otherData.value.Keys
      && forall k :: k in f.otherData.value ==> r[k] == f.otherData.value[k])
    ensures forall k :: k in FILE_DICT_KEYS && (f.otherData.None? || k !in f.otherData.value) ==>
      r[k] == PromotedFileDict(uniqueId, f)[k]
  {
    if f.otherData.Some? && f.otherData.value != map[] then Update(PromotedFileDict(uniqueId, f), f.otherData.value)
    else PromotedFileDict(uniqueId, f)
  }

  /** When the overflow has none of the promoted keys, the promoted values come through. */
  lemma ToDictKeepsPromoted(uniqueId: string, f: FileRow)
    requires f.otherData.Some? ==> forall k :: k in FILE_DICT_KEYS ==> k !in f.otherData.value
    ensures var d := ToDict(uniqueId, f);
      d["file_unique_id"] == JStr(uniqueId) && d["file_type"] == JStr(FileTypeValue(f.fileType))
      && d["file_size"] == f.fileSize && d["mime_type"] == f.mimeType
  {
  }
}
