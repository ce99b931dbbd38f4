/** The Yandex.Disk side of the copier (class `Uploader`, main.py lines 9-51).
    Both of its requests are fire-and-forget: nothing is read back from the
    response. The model keeps the requests sent, in order. */
module Disk {

  /** A request to the disk REST API: `PUT resources?path=...` creates a
      folder, `POST resources/upload?path=...&url=...` asks the disk to fetch
      a file from `url` and store it at `path`. */
  datatype DiskRequest = CreateFolder(path: string) | Upload(path: string, url: string)

  class Uploader {
    const yaToken: string
    const yaUrl: string
    /** Every request sent so far. */
    var requests: seq<DiskRequest>

    constructor (yaToken: string)
      ensures this.yaToken == yaToken
      ensures yaUrl == "https://cloud-api.yandex.net/v1/disk/resources"
      ensures requests == []
    {
      this.yaToken := yaToken;
      yaUrl := "https://cloud-api.yandex.net/v1/disk/resources";
      requests := [];
    }

    /** `ya_create_folder`: one folder-creation request for `path`. */
    method YaCreateFolder(path: string)
      modifies this
      ensures requests == old(requests) + [CreateFolder(path)]
    {
      requests := requests + [CreateFolder(path)];
    }

    /** `ya_upload`: one upload request storing `downloadableUrl` at `path`. */
    method YaUpload(path: string, downloadableUrl: string)
      modifies this
      ensures requests == old(requests) + [Upload(path, downloadableUrl)]
    {
      requests := requests + [Upload(path, downloadableUrl)];
    }
  }
}
