/** The configuration defaults the modelled code reads (backend/app/config.py). Settings are read
    once at start-up and never changed afterwards, so they are constants here. */
module Settings {

  /** `max_upload_size`: 10 MiB. */
  const MaxUploadSize: nat := 10 * 1024 * 1024

  /** `allowed_extensions`. */
  const AllowedExtensions: set<string> := {".pdf", ".txt", ".docx"}

  /** How the upload route renders `allowed_extensions` inside its error detail. */
  const AllowedExtensionsText: string := "{'.pdf', '.txt', '.docx'}"

  /** `upload_dir`. */
  const UploadDir: string := "app/storage/uploads"

  /** `retrieval_k`: chunks retrieved per question. */
  const RetrievalK: nat := 4
}
