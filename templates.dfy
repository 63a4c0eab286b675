/** The template library: ready-made plans for six kinds of shoot, applied wholesale to a project. */
module Templates {
  import opened Wrappers
  import opened Lists
  import opened Text
  import opened Model
  import Checklist

  /** A template without its icon: what it sets, and the lists it generates items from. */
  datatype Template = Template(
    id: string,
    name: string,
    projectType: ProjectType,
    description: string,
    features: seq<string>,
    equipment: seq<string>,
    checklist: seq<string>,
    duration: real,
    specialRequirements: seq<string>,
    inspiration: seq<string>)

  /** `TEMPLATES`: the six templates, in the order the library shows them. */
  const TEMPLATES: seq<Template> := [
    Template("portrait-classic", "经典人像摄影", Portrait, "适合个人写真、艺术人像的专业模板",
      ["自然光拍摄", "情绪引导", "构图技巧", "后期调色"],
      ["单反相机", "85mm镜头", "50mm镜头", "反光板", "三脚架"],
      ["确认拍摄场地和时间", "准备服装和道具", "检查相机电池和存储卡", "设置相机参数", "与模特沟通拍摄风格", "准备备用方案"],
      2.0, ["自然光", "情绪引导", "构图技巧"],
      ["人像构图", "光影运用", "情绪表达", "色彩搭配"]),
    Template("wedding-romantic", "浪漫婚礼摄影", Wedding, "婚礼纪实和婚纱照的专业拍摄模板",
      ["纪实拍摄", "情感捕捉", "细节记录", "团队协作"],
      ["双机位相机", "24-70mm镜头", "70-200mm镜头", "闪光灯", "备用电池"],
      ["确认婚礼流程和时间", "准备拍摄设备清单", "与新人沟通拍摄需求", "勘察拍摄场地", "准备备用设备", "安排后期制作时间"],
      8.0, ["双机位", "情感捕捉", "细节记录"],
      ["婚礼纪实", "情感表达", "细节特写", "光影运用"]),
    Template("landscape-nature", "自然风光摄影", Landscape, "自然风光和城市景观的专业拍摄模板",
      ["黄金时间拍摄", "构图技巧", "滤镜使用", "天气适应"],
      ["全画幅相机", "广角镜头", "长焦镜头", "渐变滤镜", "三脚架", "快门线"],
      ["查看天气预报", "确认日出日落时间", "准备滤镜和配件", "检查三脚架稳定性", "准备保暖衣物", "规划拍摄路线"],
      4.0, ["黄金时间", "滤镜使用", "三脚架稳定"],
      ["风光构图", "光影效果", "色彩层次", "景深控制"]),
    Template("product-commercial", "商业产品摄影", Product, "电商产品拍摄和商业广告的专业模板",
      ["专业布光", "细节展示", "多角度拍摄", "后期精修"],
      ["微距镜头", "专业灯光", "背景纸", "反光板", "三脚架", "转盘"],
      ["准备产品样品", "设置专业灯光", "准备背景和道具", "调整相机参数", "多角度拍摄", "后期精修处理"],
      3.0, ["专业布光", "细节展示", "多角度拍摄"],
      ["产品构图", "光影效果", "细节特写", "色彩还原"]),
    Template("event-documentary", "活动纪实摄影", Event, "会议、庆典、演出等活动的纪实拍摄模板",
      ["快速抓拍", "多场景切换", "人物特写", "环境记录"],
      ["高速相机", "变焦镜头", "闪光灯", "备用电池", "存储卡"],
      ["了解活动流程", "准备拍摄设备", "确认拍摄权限", "准备备用设备", "安排拍摄位置", "后期快速处理"],
      6.0, ["快速抓拍", "多场景切换", "人物特写"],
      ["纪实构图", "瞬间捕捉", "人物表情", "环境氛围"]),
    Template("commercial-corporate", "企业商业摄影", Commercial, "企业宣传、团队形象、办公环境的专业拍摄模板",
      ["专业形象", "环境展示", "团队协作", "品牌调性"],
      ["专业相机", "标准镜头", "广角镜头", "专业灯光", "三脚架"],
      ["了解企业需求", "准备拍摄方案", "协调拍摄时间", "准备专业设备", "安排后期制作", "交付标准确认"],
      4.0, ["专业形象", "环境展示", "品牌调性"],
      ["企业形象", "环境展示", "团队协作", "专业氛围"])
  ]

  /** `template-<id>-<index>`, the id of the generated equipment item at `index`. */
  function EquipmentItemId(t: Template, index: nat): string {
    "template-" + t.id + "-" + DecimalString(index)
  }

  /** `template-<id>-task-<index>`. */
  function TaskItemId(t: Template, index: nat): string {
    "template-" + t.id + "-task-" + DecimalString(index)
  }

  /** `template-<id>-inspiration-<index>`. */
  function InspirationItemId(t: Template, index: nat): string {
    "template-" + t.id + "-inspiration-" + DecimalString(index)
  }

  /** Texts sharing a prefix differ when what follows the prefix differs. */
  lemma PrefixCancel(prefix: string, a: string, b: string)
    requires a != b
    ensures prefix + a != prefix + b
  {
    assert (prefix + a)[|prefix|..] == a;
    assert (prefix + b)[|prefix|..] == b;
  }

  /** Generated ids of one list are pairwise distinct. */
  lemma GeneratedIdsDistinct(t: Template, i: nat, j: nat)
    requires i != j
    ensures EquipmentItemId(t, i) != EquipmentItemId(t, j)
    ensures TaskItemId(t, i) != TaskItemId(t, j)
    ensures InspirationItemId(t, i) != InspirationItemId(t, j)
  {
    DecimalStringInjective(i, j);
    PrefixCancel("template-" + t.id + "-", DecimalString(i), DecimalString(j));
    PrefixCancel("template-" + t.id + "-task-", DecimalString(i), DecimalString(j));
    PrefixCancel("template-" + t.id + "-inspiration-", DecimalString(i), DecimalString(j));
  }

  /** A required camera in good condition named after the template entry. */
  function TemplateEquipment(t: Template, index: nat, name: string): Equipment {
    Equipment(EquipmentItemId(t, index), name, "camera", true, None, None, None, None, None, Some("good"), None, None, None)
  }

  /** An open, medium-priority creative task. */
  function TemplateTask(t: Template, index: nat, task: string): ChecklistItem {
    ChecklistItem(TaskItemId(t, index), task, false, None, None, Medium, "creative")
  }

  /** An image placeholder with no url, titled and tagged with the template entry. */
  function TemplateImage(t: Template, index: nat, title: string): InspirationImage {
    InspirationImage(InspirationItemId(t, index), "", title, "关于" + title + "的参考图片", [title], "other")
  }

  function EquipmentFrom(t: Template, names: seq<string>, start: nat): (r: seq<Equipment>)
    ensures |r| == |names|
    ensures forall i :: 0 <= i < |names| ==> r[i] == TemplateEquipment(t, start + i, names[i])
  {
    if names == [] then [] else [TemplateEquipment(t, start, names[0])] + EquipmentFrom(t, names[1..], start + 1)
  }

  function TasksFrom(t: Template, tasks: seq<string>, start: nat): (r: seq<ChecklistItem>)
    ensures |r| == |tasks|
    ensures forall i :: 0 <= i < |tasks| ==> r[i] == TemplateTask(t, start + i, tasks[i])
  {
    if tasks == [] then [] else [TemplateTask(t, start, tasks[0])] + TasksFrom(t, tasks[1..], start + 1)
  }

  function ImagesFrom(t: Template, titles: seq<string>, start: nat): (r: seq<InspirationImage>)
    ensures |r| == |titles|
    ensures forall i :: 0 <= i < |titles| ==> r[i] == TemplateImage(t, start + i, titles[i])
  {
    if titles == [] then [] else [TemplateImage(t, start, titles[0])] + ImagesFrom(t, titles[1..], start + 1)
  }

  /**
   * `applyTemplate`: the project takes the template's type, duration and
   * special requirements (its other shooting settings stay); its equipment,
   * checklist and inspiration board are replaced by items generated from
   * the template's lists, in order; the template id is appended to the
   * applied templates. Nothing else changes, not even `updatedAt`.
   */
  function ApplyTemplate(p: Project, t: Template): (r: Project)
    ensures r == p.(projectType := t.projectType,
                    shootingSettings := p.shootingSettings.(duration := t.duration, specialRequirements := t.specialRequirements),
                    equipment := r.equipment, checklist := r.checklist, inspirationImages := r.inspirationImages,
                    templates := Some(p.templates.GetOr([]) + [t.id]))
    ensures |r.equipment| == |t.equipment|
    ensures forall i :: 0 <= i < |t.equipment| ==> r.equipment[i] == TemplateEquipment(t, i, t.equipment[i])
    ensures |r.checklist| == |t.checklist|
    ensures forall i :: 0 <= i < |t.checklist| ==> r.checklist[i] == TemplateTask(t, i, t.checklist[i])
    ensures |r.inspirationImages| == |t.inspiration|
    ensures forall i :: 0 <= i < |t.inspiration| ==> r.inspirationImages[i] == TemplateImage(t, i, t.inspiration[i])
  {
    p.(projectType := t.projectType,
       shootingSettings := p.shootingSettings.(duration := t.duration, specialRequirements := t.specialRequirements),
       equipment := EquipmentFrom(t, t.equipment, 0),
       checklist := TasksFrom(t, t.checklist, 0),
       inspirationImages := ImagesFrom(t, t.inspiration, 0),
       templates := Some(p.templates.GetOr([]) + [t.id]))
  }

  /** After applying a template, the ids within each generated list are pairwise distinct. */
  lemma AppliedIdsUnique(p: Project, t: Template)
    ensures var r := ApplyTemplate(p, t);
            && (forall i, j :: 0 <= i < j < |r.equipment| ==> r.equipment[i].id != r.equipment[j].id)
            && (forall i, j :: 0 <= i < j < |r.checklist| ==> r.checklist[i].id != r.checklist[j].id)
            && (forall i, j :: 0 <= i < j < |r.inspirationImages| ==> r.inspirationImages[i].id != r.inspirationImages[j].id)
  {
    var r := ApplyTemplate(p, t);
    forall i, j | 0 <= i < j < |r.equipment| ensures r.equipment[i].id != r.equipment[j].id {
      GeneratedIdsDistinct(t, i, j);
    }
    forall i, j | 0 <= i < j < |r.checklist| ensures r.checklist[i].id != r.checklist[j].id {
      GeneratedIdsDistinct(t, i, j);
    }
    forall i, j | 0 <= i < j < |r.inspirationImages| ensures r.inspirationImages[i].id != r.inspirationImages[j].id {
      GeneratedIdsDistinct(t, i, j);
    }
  }

  /** Applying the same template again changes only the record of applied templates, which names it twice. */
  lemma ApplyTwice(p: Project, t: Template)
    ensures var once := ApplyTemplate(p, t);
            var twice := ApplyTemplate(once, t);
            && twice == once.(templates := twice.templates)
            && twice.templates == Some(p.templates.GetOr([]) + [t.id, t.id])
  {
    var once := ApplyTemplate(p, t);
    var twice := ApplyTemplate(once, t);
    assert twice.equipment == once.equipment;
    assert twice.checklist == once.checklist;
    assert twice.inspirationImages == once.inspirationImages;
    assert p.templates.GetOr([]) + [t.id] + [t.id] == p.templates.GetOr([]) + [t.id, t.id];
  }

  /** A freshly applied checklist has nothing done, so its completion rate is 0. */
  lemma AppliedChecklistNotStarted(p: Project, t: Template)
    ensures Checklist.CompletedCount(ApplyTemplate(p, t).checklist) == 0
    ensures Checklist.CompletionRate(ApplyTemplate(p, t).checklist) == 0
  {
    NothingCompleted(ApplyTemplate(p, t).checklist);
  }

  lemma {:induction false} NothingCompleted(items: seq<ChecklistItem>)
    requires forall i :: 0 <= i < |items| ==> !items[i].completed
    ensures Count(items, Checklist.IsCompleted) == 0
  {
    if items != [] {
      NothingCompleted(items[1..]);
    }
  }
}
