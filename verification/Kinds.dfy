/** The kinds of activity: those that passes derive, in the order of these passes, and those that
    event routing records. */
module Kinds {
  /** The places of the kinds that passes derive, in the order of these passes; 0 for other kinds. */
  function Place(kind: string): nat {
    if kind in {"downloaded_and_executed"} then 1
    else if kind in {"downloaded_and_executed_via_powershell"} then 2
    else if kind in {"downloaded_and_observed_program"} then 3
    else if kind in {"downloaded_and_network_active_program"} then 4
    else if kind in {"task_execution", "downloaded_and_persisted"} then 5
    else if kind in {"deleted_download", "deleted_detected_file", "deleted_persistent_file"} then 6
    else if kind in {"folder_related_to_deleted_download"} then 7
    else if kind in {"deleted_file_was_opened", "downloaded_file_opened"} then 8
    else if kind in {"usb_file_access", "usb_download_to_external_drive", "possible_usb_exfiltration_candidate"} then 9
    else if kind in {"bits_download_then_execute", "bits_download_detected_by_defender"} then 10
    else if kind in {"detected_downloaded_file", "detected_executed_file", "detected_persistent_file",
                     "defender_quarantined_file", "defender_remediation_failed", "defender_remediated_threat"} then 11
    else 0
  }

  /** No pass derives an activity of a kind that event routing records. */
  lemma RecordedHaveNoPlace()
    ensures Place("file_download") == 0 && Place("program_execution") == 0
    ensures Place("powershell_execution") == 0 && Place("execution_candidate") == 0
    ensures Place("program_inventory") == 0 && Place("powershell_download") == 0
    ensures Place("application_network_usage") == 0 && Place("scheduled_task_definition") == 0
    ensures Place("scheduled_task_com_handler") == 0 && Place("scheduled_task") == 0
    ensures Place("file_recycled") == 0 && Place("defender_detection") == 0
    ensures Place("defender_action") == 0 && Place("scheduled_task_created") == 0
    ensures Place("scheduled_task_updated") == 0 && Place("persistence") == 0
    ensures Place("service_modified") == 0 && Place("service_created") == 0
    ensures Place("folder_accessed") == 0 && Place("opened_file") == 0
    ensures Place("script_opened") == 0 && Place("recent_file_opened") == 0
    ensures Place("background_download") == 0 && Place("bits_notify_persistence") == 0
    ensures Place("usb_device_install") == 0 && Place("usb_volume_mapping") == 0
    ensures Place("portable_device_observed") == 0 && Place("usb_device_seen") == 0
    ensures Place("mounted_device") == 0
  {
    hide Place;
    FileDownload();
    ProgramExecution();
    PowershellExecution();
    ExecutionCandidate();
    ProgramInventory();
    PowershellDownload();
    ApplicationNetworkUsage();
    ScheduledTaskDefinition();
    ScheduledTaskComHandler();
    ScheduledTask();
    FileRecycled();
    DefenderDetection();
    DefenderAction();
    ScheduledTaskCreated();
    ScheduledTaskUpdated();
    Persistence();
    ServiceModified();
    ServiceCreated();
    FolderAccessed();
    OpenedFile();
    ScriptOpened();
    RecentFileOpened();
    BackgroundDownload();
    BitsNotifyPersistence();
    UsbDeviceInstall();
    UsbVolumeMapping();
    PortableDeviceObserved();
    UsbDeviceSeen();
    MountedDevice();
  }

  lemma FileDownload()
    ensures Place("file_download") == 0
  {}

  lemma ProgramExecution()
    ensures Place("program_execution") == 0
  {}

  lemma PowershellExecution()
    ensures Place("powershell_execution") == 0
  {}

  lemma ExecutionCandidate()
    ensures Place("execution_candidate") == 0
  {}

  lemma ProgramInventory()
    ensures Place("program_inventory") == 0
  {}

  lemma PowershellDownload()
    ensures Place("powershell_download") == 0
  {}

  lemma ApplicationNetworkUsage()
    ensures Place("application_network_usage") == 0
  {}

  lemma ScheduledTaskDefinition()
    ensures Place("scheduled_task_definition") == 0
  {}

  lemma ScheduledTaskComHandler()
    ensures Place("scheduled_task_com_handler") == 0
  {}

  lemma ScheduledTask()
    ensures Place("scheduled_task") == 0
  {}

  lemma FileRecycled()
    ensures Place("file_recycled") == 0
  {}

  lemma DefenderDetection()
    ensures Place("defender_detection") == 0
  {}

  lemma DefenderAction()
    ensures Place("defender_action") == 0
  {}

  lemma ScheduledTaskCreated()
    ensures Place("scheduled_task_created") == 0
  {}

  lemma ScheduledTaskUpdated()
    ensures Place("scheduled_task_updated") == 0
  {}

  lemma Persistence()
    ensures Place("persistence") == 0
  {}

  lemma ServiceModified()
    ensures Place("service_modified") == 0
  {}

  lemma ServiceCreated()
    ensures Place("service_created") == 0
  {}

  lemma FolderAccessed()
    ensures Place("folder_accessed") == 0
  {}

  lemma OpenedFile()
    ensures Place("opened_file") == 0
  {}

  lemma ScriptOpened()
    ensures Place("script_opened") == 0
  {}

  lemma RecentFileOpened()
    ensures Place("recent_file_opened") == 0
  {}

  lemma BackgroundDownload()
    ensures Place("background_download") == 0
  {}

  lemma BitsNotifyPersistence()
    ensures Place("bits_notify_persistence") == 0
  {}

  lemma UsbDeviceInstall()
    ensures Place("usb_device_install") == 0
  {}

  lemma UsbVolumeMapping()
    ensures Place("usb_volume_mapping") == 0
  {}

  lemma PortableDeviceObserved()
    ensures Place("portable_device_observed") == 0
  {}

  lemma UsbDeviceSeen()
    ensures Place("usb_device_seen") == 0
  {}

  lemma MountedDevice()
    ensures Place("mounted_device") == 0
  {}

  lemma Early()
    ensures Place("downloaded_and_executed") == 1
    ensures Place("downloaded_and_executed_via_powershell") == 2
    ensures Place("downloaded_and_observed_program") == 3
    ensures Place("downloaded_and_network_active_program") == 4
  {}

  lemma TaskKinds()
    ensures Place("task_execution") == 5
    ensures Place("downloaded_and_persisted") == 5
  {}

  lemma BinKinds()
    ensures Place("deleted_download") == 6
    ensures Place("deleted_detected_file") == 6
    ensures Place("deleted_persistent_file") == 6
  {}

  lemma OpenedKinds()
    ensures Place("folder_related_to_deleted_download") == 7
    ensures Place("deleted_file_was_opened") == 8
    ensures Place("downloaded_file_opened") == 8
  {}

  lemma DriveKinds()
    ensures Place("usb_file_access") == 9
    ensures Place("usb_download_to_external_drive") == 9
    ensures Place("possible_usb_exfiltration_candidate") == 9
  {}

  lemma JobKinds()
    ensures Place("bits_download_then_execute") == 10
    ensures Place("bits_download_detected_by_defender") == 10
  {}

  lemma ThreatKinds()
    ensures Place("detected_downloaded_file") == 11
    ensures Place("detected_executed_file") == 11
    ensures Place("detected_persistent_file") == 11
  {}

  lemma VerdictKinds()
    ensures Place("defender_quarantined_file") == 11
    ensures Place("defender_remediation_failed") == 11
    ensures Place("defender_remediated_threat") == 11
  {}
}
