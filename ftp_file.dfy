/**
 * FtpFile: the FTP server's view of one native file, bound to the session's
 * user. It is immutable; every node it creates carries the same user, and
 * that user's name is reported as both owner and group.
 */
module FtpFiles {

  /** The session's authenticated user, as far as file metadata uses it. */
  datatype User = User(name: string)

  /** A native file, identified by its path. */
  datatype File = File(path: string)

  datatype FtpFile = FtpFile(file: File, user: User) {

    /** `createFile`: a node for another native file, for the same user. */
    function CreateFile(other: File): (r: FtpFile)
      ensures r.file == other && r.GetUser() == GetUser()
    {
      FtpFile(other, user)
    }

    /** `getOwnerName`: the session user's name. */
    function GetOwnerName(): (r: string)
      ensures r == GetUser().name
    {
      user.name
    }

    /** `getGroupName`: the session user's name, the same as the owner. */
    function GetGroupName(): (r: string)
      ensures r == GetUser().name && r == GetOwnerName()
    {
      user.name
    }

    /** `getUser`: the user the node was constructed with. */
    function GetUser(): (r: User)
      ensures r == user
    {
      user
    }
  }

  /** The node reached from `node` by creating a node for each file of `files` in turn. */
  ghost function Descendant(node: FtpFile, files: seq<File>): FtpFile
    decreases |files|
  {
    if files == [] then node else Descendant(node.CreateFile(files[0]), files[1..])
  }

  /** Owner and group of every node are its user's name. */
  lemma OwnerIsGroupIsUser(node: FtpFile)
    ensures node.GetOwnerName() == node.GetGroupName() == node.GetUser().name
  {
  }

  /** A node built with a user reports that user, and so does its every descendant. */
  lemma {:induction false} DescendantKeepsUser(node: FtpFile, files: seq<File>)
    ensures Descendant(node, files).GetUser() == node.GetUser()
    ensures Descendant(node, files).GetOwnerName() == node.GetOwnerName()
    ensures Descendant(node, files).GetGroupName() == node.GetOwnerName()
    ensures files != [] ==> Descendant(node, files).file == files[|files| - 1]
    decreases |files|
  {
    if files != [] {
      DescendantKeepsUser(node.CreateFile(files[0]), files[1..]);
    }
  }

  /** The constructor keeps what it is given. */
  lemma ConstructorKeepsUser(file: File, user: User)
    ensures FtpFile(file, user).GetUser() == user && FtpFile(file, user).file == file
  {
  }
}
