/** The project file uploader (components/file-upload.tsx): a chosen file is stored
    under the project's folder with a random name that keeps the file's extension, and
    the uploaded files are listed with their public links. */
module FileUpload {
  import opened Common
  import opened Schema
  import opened Backend

  /** `name.split(".").pop()`: the text after the last dot, or the whole name when it has
      no dot. */
  function Extension(name: string): (r: string)
    ensures |r| <= |name| && r == name[|name| - |r|..]
    ensures '.' !in r
    ensures |r| < |name| ==> name[|name| - |r| - 1] == '.'
    ensures '.' !in name ==> r == name
  {
    if name == [] then []
    else if name[|name| - 1] == '.' then []
    else Extension(name[..|name| - 1]) + [name[|name| - 1]]
  }

  /** Whatever precedes the last dot, the extension is what follows it. */
  lemma {:induction false} ExtensionAfterDot(prefix: string, ext: string)
    requires '.' !in ext
    ensures Extension(prefix + "." + ext) == ext
    decreases |ext|
  {
    var s := prefix + "." + ext;
    if ext == [] {
      assert s[|s| - 1] == '.';
    } else {
      var init := ext[..|ext| - 1];
      assert s[..|s| - 1] == prefix + "." + init;
      ExtensionAfterDot(prefix, init);
      assert init + [ext[|ext| - 1]] == ext;
    }
  }

  /** The storage path of an upload: `<projectId>/<token>.<extension>`, where `token`
      stands for the random base-36 string. */
  function StoragePath(projectId: Id, token: string, name: string): string
  {
    projectId + "/" + token + "." + Extension(name)
  }

  /** The stored file sits in the project's folder and keeps the chosen file's extension. */
  lemma StoragePathShape(projectId: Id, token: string, name: string)
    ensures var r := StoragePath(projectId, token, name);
      && |r| > |projectId| && r[..|projectId| + 1] == projectId + "/"
      && Extension(r) == Extension(name)
  {
    var prefix := projectId + "/" + token;
    var ext := Extension(name);
    var r := StoragePath(projectId, token, name);
    assert r == prefix + "." + ext;
    assert r[..|projectId| + 1] == projectId + "/";
    ExtensionAfterDot(prefix, ext);
  }

  /** An entry of the uploaded-files list. */
  datatype UploadedFile = UploadedFile(url: string, name: string)

  /** The uploader of one project; `publicUrl` is the storage bucket's public link of a
      path. */
  class FileUploader {
    const store: Store
    const projectId: Id
    const publicUrl: string -> string
    var uploadedFiles: seq<UploadedFile>

    constructor (store: Store, projectId: Id, publicUrl: string -> string)
      ensures this.store == store && this.projectId == projectId && this.publicUrl == publicUrl
      ensures uploadedFiles == []
    {
      this.store := store;
      this.projectId := projectId;
      this.publicUrl := publicUrl;
      uploadedFiles := [];
    }

    /** handleFileChange: with no file chosen nothing happens; otherwise the first chosen
        file is uploaded and, on success, listed last and handed to `onUploadComplete`
        (the returned entry). */
    method HandleFileChange(fileNames: seq<string>, token: string, fails: bool) returns (completed: Option<UploadedFile>)
      modifies store`files, this`uploadedFiles
      ensures completed.Some? <==> fileNames != [] && !fails
      ensures completed.Some? ==>
        var path := StoragePath(projectId, token, fileNames[0]);
        && completed.value == UploadedFile(publicUrl(path), fileNames[0])
        && store.files == old(store.files) + [path]
        && uploadedFiles == old(uploadedFiles) + [completed.value]
      ensures completed.None? ==> store.files == old(store.files) && uploadedFiles == old(uploadedFiles)
    {
      if fileNames == [] {
        return None;
      }
      var name := fileNames[0];
      var path := StoragePath(projectId, token, name);
      var ok := store.Upload(path, fails);
      if !ok {
        return None;
      }
      completed := Some(UploadedFile(publicUrl(path), name));
      uploadedFiles := uploadedFiles + [completed.value];
    }

    /** removeFile: the entry at that position of the list goes, the others keep their
        order. */
    method RemoveFile(index: int)
      requires 0 <= index < |uploadedFiles|
      modifies this`uploadedFiles
      ensures uploadedFiles == old(uploadedFiles[..index] + uploadedFiles[index + 1..])
      ensures |uploadedFiles| == |old(uploadedFiles)| - 1
      ensures multiset(uploadedFiles) + multiset{old(uploadedFiles[index])} == multiset(old(uploadedFiles))
    {
      assert uploadedFiles == uploadedFiles[..index] + [uploadedFiles[index]] + uploadedFiles[index + 1..];
      uploadedFiles := uploadedFiles[..index] + uploadedFiles[index + 1..];
    }
  }
}
