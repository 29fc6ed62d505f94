/**
 * The database records the ingestion route reads and writes (models/db_schemes):
 * projects, assets (uploaded files) and data chunks.
 */
module DbSchemes {

  /** A database object id, kept opaque. */
  type ObjectId = string

  /** Chunk metadata: an opaque key-value mapping handed through from the chunker. */
  type Metadata = map<string, string>

  /** AssetTypeEnum: only FILE matters to processing. */
  datatype AssetType = File | OtherAssetType(value: string)

  /** A project row: its database id, the user-facing `project_id` and its owner. */
  datatype Project = Project(id: ObjectId, projectId: string, email: string)

  /** An asset row: one uploaded file of a project; `assetName` is the generated file id. */
  datatype Asset = Asset(
    id: ObjectId,
    assetProjectId: ObjectId,
    assetType: AssetType,
    assetName: string,
    assetSize: nat)

  /** A DataChunk row. */
  datatype DataChunk = DataChunk(
    chunkText: string,
    chunkMetadata: Metadata,
    chunkOrder: int,
    chunkProjectId: ObjectId,
    chunkAssetId: ObjectId)

  /** One document produced by the chunker: `page_content` and `metadata`. */
  datatype Document = Document(pageContent: string, metadata: Metadata)
}
