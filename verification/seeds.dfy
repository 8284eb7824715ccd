/** The two service catalogs a provider can start with. The repository holds
    two copies of the provider, context/DataContext.tsx and
    src/context/DataContext.tsx, identical except for this seed, so the
    store is modelled once and both seeds are checked against the same
    well-formedness conditions. */
module Seeds {
  import opened Domain
  import opened Keyed

  /** A service catalog is well formed when no two categories share an id,
      no two items of one category share an id (ids may repeat across
      categories), and every item has a positive price. */
  predicate WellFormedCatalog(cats: seq<ServiceCategory>) {
    && DistinctKeys(cats, CategoryId)
    && forall c :: 0 <= c < |cats| ==> WellFormedCategory(cats[c])
  }

  /** No string occurs twice. */
  predicate DistinctStrings(ids: seq<string>) {
    forall i, j :: 0 <= i < j < |ids| ==> ids[i] != ids[j]
  }

  /** Items whose ids, position by position, are distinct strings have
      distinct ids. */
  lemma DistinctByIds(items: seq<ServiceItem>, ids: seq<string>)
    requires |items| == |ids|
    requires forall k :: 0 <= k < |items| ==> items[k].id == ids[k]
    requires DistinctStrings(ids)
    ensures DistinctKeys(items, ServiceItemId)
  {
    forall i, j | 0 <= i < j < |items|
      ensures ServiceItemId(items[i]) != ServiceItemId(items[j])
    {
      assert ids[i] != ids[j];
    }
  }

  predicate WellFormedCategory(c: ServiceCategory) {
    && DistinctKeys(c.services, ServiceItemId)
    && forall i :: 0 <= i < |c.services| ==> c.services[i].price > 0
  }

  /** "Software Services" in context/DataContext.tsx. */
  function RootSoftware(): ServiceCategory {
    ServiceCategory("cat_software", "Software Services",
      "Installations, troubleshooting, and system optimizations.",
      [
        ServiceItem("sw_win_inst", "Windows Installation", 200, "Any version (10/11)."),
        ServiceItem("sw_win_reinst", "Windows Reinstallation", 350, "Includes data backup."),
        ServiceItem("sw_win_act", "Windows Activation", 80, "License activation service."),
        ServiceItem("sw_office", "Microsoft Office Install", 100, "Word, Excel, PowerPoint, Outlook."),
        ServiceItem("sw_other", "Other Software Install", 100, "Antivirus, design tools, etc. (From R100)"),
        ServiceItem("sw_bsod", "Blue/Black Screen Fix", 200, "Error troubleshooting."),
        ServiceItem("sw_file_rec", "File Recovery", 250, "Deleted files, formatted drives. (From R250)"),
        ServiceItem("sw_virus", "Virus & Malware Removal", 200, "Clean up infected systems."),
        ServiceItem("sw_drivers", "Driver Install & Updates", 150, "System driver configuration."),
        ServiceItem("sw_opt", "System Optimization", 200, "Speed boost, cleanup, startup fix."),
        ServiceItem("sw_print", "Printer/Peripheral Setup", 150, "Setup & driver installation."),
        ServiceItem("sw_pass", "Password Reset", 150, "Account unlock service."),
        ServiceItem("sw_net", "Network & Sharing Setup", 200, "Wi-Fi, LAN, printers. (From R200)"),
        ServiceItem("sw_remote", "Remote Support", 150, "AnyDesk/TeamViewer per session.")
      ])
  }

  /** "Hardware Services" in context/DataContext.tsx. */
  function RootHardware(): ServiceCategory {
    ServiceCategory("cat_hardware", "Hardware Services",
      "Repairs, replacements, and upgrades for physical components.",
      [
        ServiceItem("hw_ram", "RAM Upgrade", 200, "Memory replacement/upgrade. (From R200)"),
        ServiceItem("hw_hdd", "Hard Drive Replacement", 450, "Storage upgrade/swap. (From R450)"),
        ServiceItem("hw_ssd", "SSD Upgrade", 600, "Speed upgrade. (From R600)"),
        ServiceItem("hw_charger", "Charger Replacement", 250, "Laptop charger replacement. (From R250)"),
        ServiceItem("hw_bat", "Battery Replacement", 500, "Laptop battery swap. (From R500)"),
        ServiceItem("hw_screen", "Screen Replacement", 700, "Laptop/Monitor. (From R700)"),
        ServiceItem("hw_key", "Keyboard Replacement", 300, "Laptop keyboard. (From R300)"),
        ServiceItem("hw_touch", "Touchpad Replacement", 300, "Trackpad fix. (From R300)"),
        ServiceItem("hw_mobo", "Motherboard Repair", 800, "Repair or replacement. (From R800)"),
        ServiceItem("hw_psu", "PSU Replacement", 450, "Power Supply Unit. (From R450)"),
        ServiceItem("hw_fan", "Cooling Fan Repair", 300, "Overheating fix. (From R300)"),
        ServiceItem("hw_usb", "USB Port Repair", 300, "Port replacement. (From R300)"),
        ServiceItem("hw_hinge", "Hinge Repair", 350, "Laptop casing/hinge fix. (From R350)"),
        ServiceItem("hw_gpu", "GPU Replacement", 600, "Graphics card upgrade. (From R600)"),
        ServiceItem("hw_diag", "Hardware Diagnostics", 300, "General troubleshooting. (From R300)")
      ])
  }

  /** "Data & Security" in context/DataContext.tsx. */
  function RootSecurity(): ServiceCategory {
    ServiceCategory("cat_security", "Data & Security",
      "Backups, recovery, and secure data handling.",
      [
        ServiceItem("ds_backup", "Data Backup Setup", 200, "Cloud or external drive. (From R200)"),
        ServiceItem("ds_full_back", "Full System Backup", 350, "Backup & Restore. (From R350)"),
        ServiceItem("ds_rec_hdd", "Hard Drive Data Recovery", 500, "Corrupted drive recovery. (From R500)"),
        ServiceItem("ds_part", "Partition Management", 200, "Drive formatting/partitioning. (From R200)"),
        ServiceItem("ds_trans", "Data Transfer", 250, "Old PC to New PC. (From R250)")
      ])
  }

  /** "Custom Services" in context/DataContext.tsx. */
  function RootCustom(): ServiceCategory {
    ServiceCategory("cat_custom", "Custom Services",
      "Specialized diagnostics and on-site support.",
      [
        ServiceItem("cs_opt", "PC Performance Tune-up", 200, "Full optimization."),
        ServiceItem("cs_diag", "Full Diagnostics", 200, "Hardware & Software check."),
        ServiceItem("cs_visit", "On-Site Technician", 150, "Call-out fee per visit.")
      ])
  }

  /** The starting service catalog of the provider in context/DataContext.tsx. */
  function RootSeed(): seq<ServiceCategory> {
    [RootSoftware(), RootHardware(), RootSecurity(), RootCustom()]
  }

  /** "Laptop Repair" in src/context/DataContext.tsx. */
  function SrcLaptop(): ServiceCategory {
    ServiceCategory("cat_laptop", "Laptop Repair",
      "Comprehensive diagnostics and repair for all laptop models.",
      [
        ServiceItem("srv_l_screen", "Screen Replacement", 1500, "New display installation."),
        ServiceItem("srv_l_bat", "Battery Replacement", 800, "Genuine battery swap."),
        ServiceItem("srv_l_key", "Keyboard Replacement", 700, "Full keyboard unit replacement."),
        ServiceItem("srv_l_mobo", "Motherboard Repair", 2500, "Component-level board repair."),
        ServiceItem("srv_l_soft", "Software Troubleshooting", 450, "OS issues, virus removal.")
      ])
  }

  /** "Desktop PC Repair" in src/context/DataContext.tsx. */
  function SrcDesktop(): ServiceCategory {
    ServiceCategory("cat_desktop", "Desktop PC Repair",
      "Upgrades, diagnostics, and repairs for custom and brand-name desktops.",
      [
        ServiceItem("srv_d_upg", "Component Upgrade", 600, "CPU, RAM, GPU installation."),
        ServiceItem("srv_d_psu", "PSU Replacement", 900, "Power supply unit swap."),
        ServiceItem("srv_d_data", "Data Recovery", 1200, "Recover lost files from drives."),
        ServiceItem("srv_d_build", "Custom Build Consultation", 300, "Expert advice for new builds.")
      ])
  }

  /** "Mobile Device Repair" in src/context/DataContext.tsx. */
  function SrcMobile(): ServiceCategory {
    ServiceCategory("cat_mobile", "Mobile Device Repair",
      "Screen, battery, and component repairs for smartphones and tablets.",
      [
        ServiceItem("srv_m_screen", "Phone Screen Repair", 1000, "Cracked screen replacement."),
        ServiceItem("srv_m_bat", "Tablet Battery Replacement", 750, "Tablet battery swap."),
        ServiceItem("srv_m_port", "Charging Port Repair", 650, "Fix non-charging ports.")
      ])
  }

  /** "Data Recovery" in src/context/DataContext.tsx. */
  function SrcData(): ServiceCategory {
    ServiceCategory("cat_data", "Data Recovery",
      "Professional data retrieval from damaged hard drives and storage devices.",
      [
        ServiceItem("srv_dr_std", "Standard Data Recovery", 1800, "From non-booting drives."),
        ServiceItem("srv_dr_adv", "Advanced Data Recovery", 3500, "From physically damaged drives.")
      ])
  }

  /** The starting service catalog of the provider in src/context/DataContext.tsx. */
  function SrcSeed(): seq<ServiceCategory> {
    [SrcLaptop(), SrcDesktop(), SrcMobile(), SrcData()]
  }

  /** The software items' ids, read off item by item in three parts. */
  lemma RootSoftwareIdsA()
    ensures |RootSoftware().services| == 14
    ensures RootSoftware().services[0].id == "sw_win_inst"
    ensures RootSoftware().services[1].id == "sw_win_reinst"
    ensures RootSoftware().services[2].id == "sw_win_act"
    ensures RootSoftware().services[3].id == "sw_office"
    ensures RootSoftware().services[4].id == "sw_other"
  {
  }

  lemma RootSoftwareIdsB()
    ensures RootSoftware().services[5].id == "sw_bsod"
    ensures RootSoftware().services[6].id == "sw_file_rec"
    ensures RootSoftware().services[7].id == "sw_virus"
    ensures RootSoftware().services[8].id == "sw_drivers"
    ensures RootSoftware().services[9].id == "sw_opt"
  {
  }

  lemma RootSoftwareIdsC()
    ensures RootSoftware().services[10].id == "sw_print"
    ensures RootSoftware().services[11].id == "sw_pass"
    ensures RootSoftware().services[12].id == "sw_net"
    ensures RootSoftware().services[13].id == "sw_remote"
  {
  }

  /** The software items' ids, in catalog order. */
  const RootSoftwareIdList: seq<string> := ["sw_win_inst", "sw_win_reinst", "sw_win_act", "sw_office", "sw_other", "sw_bsod", "sw_file_rec", "sw_virus", "sw_drivers", "sw_opt", "sw_print", "sw_pass", "sw_net", "sw_remote"]

  lemma RootSoftwareIdListDistinct()
    ensures DistinctStrings(RootSoftwareIdList)
  {
  }

  /** The software items' ids are pairwise different. */
  lemma RootSoftwareIdsDistinct()
    ensures DistinctKeys(RootSoftware().services, ServiceItemId)
  {
    RootSoftwareIdsA();
    RootSoftwareIdsB();
    RootSoftwareIdsC();
    RootSoftwareIdListDistinct();
    DistinctByIds(RootSoftware().services, RootSoftwareIdList);
  }

  lemma RootSoftwareWellFormed()
    ensures WellFormedCategory(RootSoftware())
  {
    RootSoftwareIdsDistinct();
  }

  /** The hardware items' ids, read off item by item in three parts. */
  lemma RootHardwareIdsA()
    ensures |RootHardware().services| == 15
    ensures RootHardware().services[0].id == "hw_ram"
    ensures RootHardware().services[1].id == "hw_hdd"
    ensures RootHardware().services[2].id == "hw_ssd"
    ensures RootHardware().services[3].id == "hw_charger"
    ensures RootHardware().services[4].id == "hw_bat"
  {
  }

  lemma RootHardwareIdsB()
    ensures RootHardware().services[5].id == "hw_screen"
    ensures RootHardware().services[6].id == "hw_key"
    ensures RootHardware().services[7].id == "hw_touch"
    ensures RootHardware().services[8].id == "hw_mobo"
    ensures RootHardware().services[9].id == "hw_psu"
  {
  }

  lemma RootHardwareIdsC()
    ensures RootHardware().services[10].id == "hw_fan"
    ensures RootHardware().services[11].id == "hw_usb"
    ensures RootHardware().services[12].id == "hw_hinge"
    ensures RootHardware().services[13].id == "hw_gpu"
    ensures RootHardware().services[14].id == "hw_diag"
  {
  }

  /** The hardware items' ids, in catalog order. */
  const RootHardwareIdList: seq<string> := ["hw_ram", "hw_hdd", "hw_ssd", "hw_charger", "hw_bat", "hw_screen", "hw_key", "hw_touch", "hw_mobo", "hw_psu", "hw_fan", "hw_usb", "hw_hinge", "hw_gpu", "hw_diag"]

  lemma RootHardwareIdListDistinct()
    ensures DistinctStrings(RootHardwareIdList)
  {
  }

  /** The hardware items' ids are pairwise different. */
  lemma RootHardwareIdsDistinct()
    ensures DistinctKeys(RootHardware().services, ServiceItemId)
  {
    RootHardwareIdsA();
    RootHardwareIdsB();
    RootHardwareIdsC();
    RootHardwareIdListDistinct();
    DistinctByIds(RootHardware().services, RootHardwareIdList);
  }

  lemma RootHardwareWellFormed()
    ensures WellFormedCategory(RootHardware())
  {
    RootHardwareIdsDistinct();
  }

  lemma RootSecurityWellFormed()
    ensures WellFormedCategory(RootSecurity())
  {
  }

  lemma RootCustomWellFormed()
    ensures WellFormedCategory(RootCustom())
  {
  }

  /** The context/DataContext.tsx seed is well formed. */
  lemma RootSeedWellFormed()
    ensures |RootSeed()| == 4
    ensures WellFormedCatalog(RootSeed())
  {
    RootSoftwareWellFormed();
    RootHardwareWellFormed();
    RootSecurityWellFormed();
    RootCustomWellFormed();
    var cats := RootSeed();
    assert DistinctKeys(cats, CategoryId);
  }

  lemma SrcLaptopWellFormed()
    ensures WellFormedCategory(SrcLaptop())
  {
  }

  lemma SrcDesktopWellFormed()
    ensures WellFormedCategory(SrcDesktop())
  {
  }

  lemma SrcMobileWellFormed()
    ensures WellFormedCategory(SrcMobile())
  {
  }

  lemma SrcDataWellFormed()
    ensures WellFormedCategory(SrcData())
  {
  }

  /** The src/context/DataContext.tsx seed is well formed. */
  lemma SrcSeedWellFormed()
    ensures |SrcSeed()| == 4
    ensures WellFormedCatalog(SrcSeed())
  {
    SrcLaptopWellFormed();
    SrcDesktopWellFormed();
    SrcMobileWellFormed();
    SrcDataWellFormed();
    var cats := SrcSeed();
    assert DistinctKeys(cats, CategoryId);
  }
}
