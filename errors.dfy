/** Optional values, the exceptions the core raises, and the text `str(e)`
    gives for each of them. */
module Errors {
  import opened Text

  datatype Option<+T> = None | Some(value: T) {
    /** Python `d.get(key, default)` once the key's presence is known. */
    function GetOr(default: T): T {
      match this
      case Some(v) => v
      case None => default
    }
  }

  /** The exceptions that leave the core, each with the data its message shows. */
  datatype Error =
    | ImageNotFound(path: string)                      // FileNotFoundError in ImageAnalyzer.analyze_image
    | UnsupportedFormat(suffix: string)                // ValueError for an extension outside the whitelist
    | VideoNotFound(path: string)                      // FileNotFoundError in ImageAnalyzer.analyze_video
    | ModelUnavailable(model: string)                  // RuntimeError when ensure_model fails
    | ImageGenerationFailed(model: string, cause: string)  // RuntimeError wrapping a failed generate request
    | TextGenerationFailed(model: string, cause: string)   // RuntimeError wrapping a failed chat request
    | NoSuchFile(path: string)                         // OSError from open() on a missing file
    | IsADirectory(path: string)                       // OSError from open() or unlink() on a directory
    | ModuloByZero                                     // ZeroDivisionError from `frame_count % 0`
    | DirectoryNotEmpty(path: string)                  // OSError from rmdir() on a non-empty directory
    | FileExists(path: string)                         // FileExistsError from mkdir() over a regular file
    | InvalidSuffix(suffix: string)                    // ValueError from Path.with_suffix
    | EmptyName(path: string)                          // ValueError from Path.with_suffix on a path without a name

  datatype Result<+T> = Ok(value: T) | Err(error: Error)

  /** `str(e)` for each exception. */
  function Message(e: Error): string {
    match e
    case ImageNotFound(p) => "Image not found: " + p
    case UnsupportedFormat(x) => "Unsupported image format: " + x
    case VideoNotFound(p) => "Video not found: " + p
    case ModelUnavailable(m) => "Failed to ensure model " + m + " is available"
    case ImageGenerationFailed(m, c) => "Error analyzing image with " + m + ": " + c
    case TextGenerationFailed(m, c) => "Error generating text with " + m + ": " + c
    case NoSuchFile(p) => "[Errno 2] No such file or directory: '" + p + "'"
    case IsADirectory(p) => "[Errno 21] Is a directory: '" + p + "'"
    case ModuloByZero => "integer modulo by zero"
    case DirectoryNotEmpty(p) => "[Errno 39] Directory not empty: '" + p + "'"
    case FileExists(p) => "[Errno 17] File exists: '" + p + "'"
    case InvalidSuffix(x) => "Invalid suffix '" + x + "'"
    case EmptyName(p) => "PosixPath('" + p + "') has an empty name"
  }
}
