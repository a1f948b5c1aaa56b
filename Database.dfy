/**
 * The video record as the handler sees it. Its storage and queries belong to the
 * database package, which is not part of this model: the handler only reads a
 * record by ID and writes one back.
 */
module Database {
  import opened Wrappers

  /** A `uuid.UUID`: its 16 bytes read as one big-endian number. */
  type Uuid = x: nat | x < 0x1_0000_0000_0000_0000_0000_0000_0000_0000

  /** `uuid.Nil`, the all-zero UUID. */
  const NilUuid: Uuid := 0

  /** `database.Video`; a nil `*string` is `None`, times are opaque stamps. */
  datatype Video = Video(
    id: Uuid,
    createdAt: int,
    updatedAt: int,
    thumbnailURL: Option<string>,
    videoURL: Option<string>,
    title: string,
    description: string,
    userID: Uuid)
}
