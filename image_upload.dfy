/** The admin image field (components/admin/image-upload.tsx): uploads a
    chosen file to a storage bucket under a random name and hands the public
    address to the form, or takes an address typed in by hand. */
module ImageUpload {
  import opened Opt
  import JsText

  /** The chosen file; only its name matters here. */
  datatype File = File(name: string)

  const UploadAlert := "Error uploading image"

  /** `name.split('.').pop()`: the text after the last dot, or the whole
      name when it has no dot. */
  function FileExt(name: string): (ext: string)
    ensures '.' !in ext
    ensures '.' !in name ==> ext == name
    ensures '.' in name ==> |ext| < |name| && name[|name| - |ext| - 1] == '.' && name[|name| - |ext|..] == ext
  {
    var parts := JsText.Split(name, '.');
    var n := |parts|;
    if n >= 2 then
      JsText.JoinSnoc(parts, '.');
      parts[n - 1]
    else
      assert parts == [parts[0]];
      parts[0]
  }

  /** Whatever comes before, the extension of `p + "." + e` is `e` when `e` has no dot. */
  lemma ExtOfDottedName(p: string, e: string)
    requires '.' !in e
    ensures FileExt(p + ['.'] + e) == e
  {
    var name := p + ['.'] + e;
    assert name[|p|] == '.';
    assert name[|name| - |e|..] == e;
  }

  /** `` `${random}.${fileExt}` ``: the random name, a dot, and the file's
      extension, which the stored object keeps. */
  function FilePath(random: string, name: string): (path: string)
    ensures |path| > |random| && path[..|random|] == random && path[|random|] == '.'
    ensures FileExt(path) == FileExt(name)
  {
    ExtOfDottedName(random, FileExt(name));
    random + ['.'] + FileExt(name)
  }

  /** A file named without a dot is stored under "<random>.<name>". */
  lemma UndottedNameIsExtension(random: string, name: string)
    requires '.' !in name
    ensures FilePath(random, name) == random + ['.'] + name
  {
  }

  /** The storage bucket: the paths of the objects it holds. */
  class Bucket {
    var objects: seq<string>

    constructor (initial: seq<string>)
      ensures objects == initial
    {
      objects := initial;
    }

    /** `.upload(path, file)`; `ok` is whether the store accepted it. */
    method Upload(path: string, ok: bool)
      modifies this
      ensures objects == old(objects) + if ok then [path] else []
    {
      if ok {
        objects := objects + [path];
      }
    }
  }

  /** The control's state, and what it has told the outside world:
      `emitted` lists the `onChange` calls, `alerts` the alerts raised. */
  class Uploader {
    var isUploading: bool
    var emitted: seq<string>
    var alerts: seq<string>
    /** Whether `isUploading` was set at each storage call. */
    ghost var busyAtUpload: seq<bool>

    constructor ()
      ensures !isUploading && emitted == [] && alerts == [] && busyAtUpload == []
      ensures FileInputEnabled()
    {
      isUploading := false;
      emitted := [];
      alerts := [];
      busyAtUpload := [];
    }

    /** The file input is usable only while no upload runs. */
    predicate FileInputEnabled()
      reads this
      ensures FileInputEnabled() ==> !isUploading
    {
      !isUploading
    }

    /** `handleUpload`. With no file nothing happens. Otherwise the file goes
        to `<random>.<ext>`; on success the public address (`publicUrl` of the
        path) is emitted once, on failure an alert is raised and nothing is
        emitted; the flag is up during the storage call and down afterwards. */
    method HandleUpload(file: Option<File>, random: string, bucket: Bucket, storeOk: bool, publicUrl: string -> string)
      modifies this, bucket
      ensures file.None? ==>
                isUploading == old(isUploading) && emitted == old(emitted) && alerts == old(alerts)
                && busyAtUpload == old(busyAtUpload) && bucket.objects == old(bucket.objects)
      ensures file.Some? ==>
                var path := FilePath(random, file.value.name);
                !isUploading && FileInputEnabled()
                && busyAtUpload == old(busyAtUpload) + [true]
                && bucket.objects == old(bucket.objects) + (if storeOk then [path] else [])
                && emitted == old(emitted) + (if storeOk then [publicUrl(path)] else [])
                && alerts == old(alerts) + (if storeOk then [] else [UploadAlert])
    {
      if file.None? {
        return;
      }
      isUploading := true;
      var path := FilePath(random, file.value.name);
      busyAtUpload := busyAtUpload + [isUploading];
      bucket.Upload(path, storeOk);
      if !storeOk {
        alerts := alerts + [UploadAlert];
      } else {
        emitted := emitted + [publicUrl(path)];
      }
      isUploading := false;
    }

    /** `handleRemove`: the form's value is cleared. */
    method HandleRemove()
      modifies this
      ensures emitted == old(emitted) + [""]
      ensures isUploading == old(isUploading) && alerts == old(alerts) && busyAtUpload == old(busyAtUpload)
    {
      emitted := emitted + [""];
    }

    /** The manual address field: what is typed is passed on as it is. */
    method ManualInput(text: string)
      modifies this
      ensures emitted == old(emitted) + [text]
      ensures isUploading == old(isUploading) && alerts == old(alerts) && busyAtUpload == old(busyAtUpload)
    {
      emitted := emitted + [text];
    }
  }

  /** `value ? … : …`: with a value the preview and the remove button show;
      without one the file input does. */
  predicate ShowsPreview(value: string)
    ensures ShowsPreview(value) <==> JsText.Truthy(Some(value))
  {
    value != ""
  }

  /** `!value`: the manual address field. */
  predicate ShowsManualEntry(value: string)
    ensures ShowsManualEntry(value) <==> !JsText.Truthy(Some(value))
  {
    value == ""
  }

  /** Exactly one of the two faces is on screen. */
  lemma OneFace(value: string)
    ensures ShowsPreview(value) != ShowsManualEntry(value)
  {
  }
}
