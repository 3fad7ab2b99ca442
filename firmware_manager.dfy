/** `FirmwareManager` (fritzbox_api.py): the table of known models with their
    target firmware versions and image files, and the lookup that turns a model
    and a version type ("final" or "bridge") into the path of an image shipped
    next to the program, or falls back to asking the operator with a file
    dialog. The table is built once and never changed, so it is a constant. */
module FirmwareManager {
  import opened Common
  import opened Text

  /** The folder, next to the program, that holds the images. */
  const FirmwareFolder: string := "firmware und recovery"

  /** `firmware_mapping`: model -> (key -> value). */
  const Table: map<string, map<string, string>> := map[
    "7590" := map["bridge" := "07.59", "final" := "08.03",
                  "bridge_file" := "FRITZ.Box_7590-07.59.image",
                  "final_file" := "FRITZ.Box_7590-08.03.image"],
    "7530" := map["final" := "08.02", "final_file" := "FRITZ.Box_7530-08.02.image"],
    "7490" := map["final" := "07.60", "final_file" := "FRITZ.Box_7490-07.60.image"],
    "7582" := map["final" := "07.18", "final_file" := "FRITZ.Box_7582-07.18.image"],
    "6660" := map["final" := "08.03", "final_file" := "FRITZ.Box_6660_Cable-08.03.image"],
    "6890" := map["final" := "07.57", "final_file" := "FRITZ.Box_6890_LTE-07.57.image"]
  ]

  /** `f"{version_type}_file"` */
  function FileKey(versionType: string): (r: string)
    ensures |r| == |versionType| + 5 && r[..|versionType|] == versionType
  {
    versionType + "_file"
  }

  /** Where the firmware comes from: the image shipped in `<dir>/FirmwareFolder`,
      or the file dialog. */
  datatype FirmwareSource = Shipped(dir: string, folder: string, file: string) | AskOperator

  /** The entry for `boxModel` and `versionType`, if the table has one. */
  function TableFile(boxModel: string, versionType: string): (r: Option<string>)
    ensures r.Some? <==> boxModel in Table && FileKey(versionType) in Table[boxModel]
    ensures r.Some? ==> r.value == Table[boxModel][FileKey(versionType)]
  {
    if boxModel in Table && FileKey(versionType) in Table[boxModel] then Some(Table[boxModel][FileKey(versionType)])
    else None
  }

  /** `get_firmware_path`: an empty or unknown model, or a model without a
      `<type>_file` entry, goes to the file dialog; otherwise the shipped image
      `<dir>/firmware und recovery/<file>` when it exists (`isFile`), else the
      file dialog. `dir` is the program's folder. */
  function GetFirmwarePath(boxModel: string, versionType: string, dir: string, isFile: string -> bool): (r: FirmwareSource)
    ensures r.Shipped? <==> TableFile(boxModel, versionType).Some? && isFile(TableFile(boxModel, versionType).value)
    ensures r.Shipped? ==> r == Shipped(dir, FirmwareFolder, Table[boxModel][FileKey(versionType)])
  {
    if boxModel == [] || boxModel !in Table then AskOperator
    else if FileKey(versionType) !in Table[boxModel] then AskOperator
    else
      var file := Table[boxModel][FileKey(versionType)];
      if isFile(file) then Shipped(dir, FirmwareFolder, file) else AskOperator
  }

  /** The models the table knows. */
  lemma TableModels(m: string)
    requires m in Table
    ensures m == "7590" || m == "7530" || m == "7490" || m == "7582" || m == "6660" || m == "6890"
  {
  }

  /** Only the 7590 has a bridge image; for every other model a "bridge"
      lookup goes to the file dialog. */
  lemma BridgeOnlyFor7590(boxModel: string, dir: string, isFile: string -> bool)
    requires boxModel != "7590"
    ensures GetFirmwarePath(boxModel, "bridge", dir, isFile) == AskOperator
  {
    assert FileKey("bridge") == "bridge_file";
  }

  /** A model written with a suffix (the LTE spelling `6890_LTE`) is not a key of
      the table, so it always goes to the file dialog. */
  lemma SuffixedModelAsksOperator(model: string, versionType: string, dir: string, isFile: string -> bool)
    requires |model| > 4
    ensures GetFirmwarePath(model, versionType, dir, isFile) == AskOperator
  {
    assert forall m | m in Table :: |m| == 4;
  }

  /** Every model in the table has a shipped final image, found whenever the
      file exists. */
  lemma KnownModelFinalShipped(boxModel: string, dir: string, isFile: string -> bool)
    requires boxModel in Table
    requires isFile(Table[boxModel]["final_file"])
    ensures "final_file" in Table[boxModel]
    ensures GetFirmwarePath(boxModel, "final", dir, isFile) == Shipped(dir, FirmwareFolder, Table[boxModel]["final_file"])
  {
    TableModels(boxModel);
    assert FileKey("final") == "final_file";
  }
}
