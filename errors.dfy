/** The ways a run stops early. */
module Errors {

  datatype Error =
    /** `File.rename` of a path that does not exist (Errno::ENOENT). */
    | NoSuchEntry(path: string)
    /** Reading a path that is a directory (Errno::EISDIR). */
    | IsADirectory(path: string)
    /** `remove_from_project` called on the nil that a failed target lookup gave. */
    | NoApplicationTarget
    /** `remove_from_project` called on the nil that a failed group lookup gave. */
    | NoAppGroup
    /** `remove_from_project` called on the nil that a failed product lookup gave. */
    | NoAppProduct

}
